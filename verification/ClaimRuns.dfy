/** Who really has a pod on a home volume, over whole runs: the verdict of the claim
    check is about the moment, while pods outlive it. A blocked sandbox keeps its pod,
    and a pass acts on what it read before. */
module ClaimRuns {
  import opened Base
  import opened Claims

  datatype Verdict = Blocked | Sleep | Make

  /** The pass of the single worker: it has read a sandbox, or also judged its claim. */
  datatype Job =
    | Resting
    | Read(copy: Sandbox, idle: bool)
    | Judged(uid: string, claim: string, verdict: Verdict)

  /** The sandboxes of a namespace, and the claim each pod uses, by the UID of its
      sandbox. A pod counts until it is gone, whoever asked it to stop. */
  datatype State = State(now: Time, all: set<Sandbox>, pods: map<string, string>, job: Job)

  const EMPTY := State(0, {}, map[], Resting)

  datatype Event =
    | Tick(to: Time)
    | Create(x: Sandbox)
    | Edit(x: Sandbox, stopped: bool, claim: string)   // the user starts, stops or re-targets it
    | Delete(x: Sandbox)
    | Remove(x: Sandbox)                               // teardown done; its pod may still terminate
    | Begin(x: Sandbox, idle: bool)                    // a pass reads it; `idle` if it will find it idle
    | Judge                                            // ... and asks for conflicts
    | Act(x: Sandbox, done: bool, stored: bool)        // ... gets to the pod or not, stores its status or not
    | PodGone(uid: string)

  function ClaimOf(x: Sandbox): string {
    if x.existingClaim != "" then x.existingClaim else GeneratedClaim(x.name)
  }

  /** A sandbox with a generated claim is never checked. */
  predicate Unchecked(x: Sandbox) {
    x.existingClaim == ""
  }

  ghost predicate Free(all: set<Sandbox>, x: Sandbox) {
    Unchecked(x) || Unblocked(all, x, ClaimOf(x))
  }

  ghost predicate Enabled(s: State, e: Event) {
    match e
    case Tick(to) => s.now <= to
    case Create(x) =>
      && x.created == s.now && !x.deleting && !x.suspended
      && x !in s.all && WellNamed(s.all + {x}) && x.uid !in s.pods
    case Edit(x, _, _) => x in s.all
    case Delete(x) => x in s.all
    case Remove(x) => x in s.all && x.deleting && s.job.Resting?
    case Begin(x, _) => x in s.all && !x.deleting && s.job.Resting?
    case Judge => s.job.Read?
    case Act(x, _, _) => s.job.Judged? && x in s.all && x.uid == s.job.uid
    case PodGone(uid) => uid in s.pods
  }

  function Replace(all: set<Sandbox>, x: Sandbox, y: Sandbox): set<Sandbox> {
    all - {x} + {y}
  }

  ghost function VerdictOn(s: State): Verdict
    requires s.job.Read?
  {
    if !Free(s.all, s.job.copy) then Blocked
    else if s.job.copy.stopped || s.job.idle then Sleep else Make
  }

  /** What the pass stores as "suspended": only a sleeping sandbox found without a pod. */
  function Stored(s: State, x: Sandbox, done: bool, stored: bool): Sandbox
    requires s.job.Judged?
  {
    if stored then x.(suspended := s.job.verdict == Sleep && done && x.uid !in s.pods) else x
  }

  ghost function Apply(s: State, e: Event): State
    requires Enabled(s, e)
  {
    match e
    case Tick(to) => s.(now := to)
    case Create(x) => s.(all := s.all + {x})
    case Edit(x, stopped, claim) => s.(all := Replace(s.all, x, x.(stopped := stopped, existingClaim := claim)))
    case Delete(x) => s.(all := Replace(s.all, x, x.(deleting := true)))
    case Remove(x) => s.(all := s.all - {x})
    case Begin(x, idle) => s.(job := Read(x, idle))
    case Judge => s.(job := Judged(s.job.copy.uid, ClaimOf(s.job.copy), VerdictOn(s)))
    case Act(x, done, stored) =>
      s.(all := Replace(s.all, x, Stored(s, x, done, stored)), job := Resting,
         pods := if s.job.verdict == Make && done && x.uid !in s.pods then s.pods[x.uid := s.job.claim] else s.pods)
    case PodGone(uid) => s.(pods := s.pods - {uid})
  }

  ghost predicate Legal(s: State, es: seq<Event>)
    decreases |es|
  {
    es == [] || (Enabled(s, es[0]) && Legal(Apply(s, es[0]), es[1..]))
  }

  ghost function Exec(s: State, es: seq<Event>): State
    requires Legal(s, es)
    decreases |es|
  {
    if es == [] then s else Exec(Apply(s, es[0]), es[1..])
  }

  /** No two pods use the same claim. */
  ghost predicate OnePod(s: State) {
    forall u, v :: u in s.pods && v in s.pods && s.pods[u] == s.pods[v] ==> u == v
  }

  // ------------------------------------------------------ who is in the way

  /** The pass in flight read the sandbox as one to run on the claim. */
  predicate Wish(s: State, y: Sandbox, c: string) {
    s.job.Read? && s.job.copy.uid == y.uid && !s.job.copy.stopped && !s.job.idle && ClaimOf(s.job.copy) == c
  }

  /** The sandbox has a pod on the claim, or its pass is about to make one. */
  predicate Holds(s: State, y: Sandbox, c: string) {
    || (y.uid in s.pods && s.pods[y.uid] == c)
    || (s.job.Judged? && s.job.uid == y.uid && s.job.verdict == Make && s.job.claim == c)
  }

  /** The sandbox would make a pod on the claim if its pass found it free; `unchecked`
      tells that its pass does not look. */
  predicate Seeks(s: State, y: Sandbox, c: string, unchecked: bool) {
    || (!y.deleting && !y.stopped && ClaimOf(y) == c && Unchecked(y) == unchecked)
    || (Wish(s, y, c) && Unchecked(s.job.copy) == unchecked)
  }

  /** The sandbox is seen by the check of every later one that names the claim. */
  predicate Guards(y: Sandbox, c: string) {
    Contends(y) && (y.existingClaim == c || OwnerOfGeneratedClaim(c) == Some(y.name))
  }

  // --------------------------------------------------------------- invariant

  ghost predicate Known(s: State, uid: string) {
    exists y :: y in s.all && y.uid == uid
  }

  /** The copy of a pass differs from the stored sandbox at most in what may be edited. */
  predicate SameSandbox(copy: Sandbox, y: Sandbox) {
    copy.uid == y.uid && copy.name == y.name && copy.created == y.created
  }

  ghost predicate Good(s: State) {
    && WellNamed(s.all)
    && (forall x :: x in s.all ==> x.created <= s.now)
    && (forall uid :: uid in s.pods ==> s.pods[uid] != "")
    && (s.job.Judged? ==> Known(s, s.job.uid) && s.job.claim != "")
    && (s.job.Read? ==> exists y :: y in s.all && SameSandbox(s.job.copy, y))
  }

  /** A holder guards its claim, is the only one, and precedes everyone who seeks it. */
  ghost predicate HolderFirm(s: State, y: Sandbox, c: string) {
    && Guards(y, c)
    && (forall x :: x in s.all && x != y ==>
          !Holds(s, x, c) && !Seeks(s, x, c, true) && (Seeks(s, x, c, false) ==> Wins(y, x)))
  }

  /** One who does not look precedes everyone else who seeks the claim. */
  ghost predicate BlindFirm(s: State, o: Sandbox, c: string) {
    forall x, u :: x in s.all && x != o && Seeks(s, x, c, u) ==> Wins(o, x)
  }

  ghost predicate Firm(s: State) {
    && Good(s)
    && (forall uid :: uid in s.pods ==> Known(s, uid))
    && (forall y, c :: y in s.all && Holds(s, y, c) ==> HolderFirm(s, y, c))
    && (forall o, c :: o in s.all && Seeks(s, o, c, true) ==> BlindFirm(s, o, c))
    && (forall y, c :: y in s.all && Wish(s, y, c) ==> Guards(y, c))
  }

  lemma FirmOnePod(s: State)
    requires Firm(s)
    ensures OnePod(s)
  {
    forall u, v | u in s.pods && v in s.pods && s.pods[u] == s.pods[v] ensures u == v {
      assert Known(s, u) && Known(s, v);
      var y :| y in s.all && y.uid == u;
      var x :| x in s.all && x.uid == v;
      assert Holds(s, y, s.pods[u]) && Holds(s, x, s.pods[u]);
      assert HolderFirm(s, y, s.pods[u]);
    }
  }

  // ---------------------------------------------------------- admitted steps

  /** Replacing `x` by `y` (or adding `y`) puts no newcomer before a holder of the claim
      it would seek, and none beside one who does not look. */
  ghost predicate Admits(s: State, x: Sandbox, y: Sandbox) {
    var c := ClaimOf(y);
    !y.deleting && !y.stopped ==>
      forall z :: z in s.all && z != x ==>
        && (Holds(s, z, c) ==> !Unchecked(y) && Wins(z, y))
        && (Seeks(s, z, c, true) ==> Wins(z, y))
        && (Unchecked(y) && (Seeks(s, z, c, true) || Seeks(s, z, c, false)) ==> Wins(y, z))
  }

  /** ... and a sandbox that has or is getting a pod goes on guarding its claim. */
  ghost predicate StaysOnGuard(s: State, x: Sandbox, y: Sandbox) {
    forall c :: Holds(s, x, c) || Wish(s, x, c) ==> Guards(y, c)
  }

  /** What users must not do: start, create or re-target a sandbox ahead of one that has
      a pod on the claim, and delete, stop or re-target one that has a pod and would no
      longer be seen. Everything else is admitted. */
  ghost predicate Admitted(s: State, e: Event) {
    match e
    case Create(x) => Admits(s, x, x)
    case Edit(x, stopped, claim) =>
      var y := x.(stopped := stopped, existingClaim := claim);
      Admits(s, x, y) && StaysOnGuard(s, x, y)
    case Delete(x) => StaysOnGuard(s, x, x.(deleting := true))
    case _ => true
  }

  // --------------------------------------------- admitted steps keep it firm

  lemma WinsSame(a: Sandbox, a': Sandbox, b: Sandbox)
    requires SameSandbox(a, a')
    ensures Wins(a, b) <==> Wins(a', b)
    ensures Wins(b, a) <==> Wins(b, a')
  {
  }

  lemma ReplaceNamed(all: set<Sandbox>, x: Sandbox, y: Sandbox)
    requires WellNamed(all) && x in all && SameSandbox(x, y)
    ensures WellNamed(Replace(all, x, y))
    ensures forall z :: z in Replace(all, x, y) && z != y ==> z in all && z != x
  {
    forall a, b | a in Replace(all, x, y) && b in Replace(all, x, y)
      ensures a.name != "" && (a.name == b.name ==> a == b) && (a.uid == b.uid ==> a == b)
    {
      var a' := if a == y then x else a;
      var b' := if b == y then x else b;
      assert a' in all && b' in all;
    }
  }

  lemma ReplaceGood(s: State, x: Sandbox, y: Sandbox)
    requires Good(s) && x in s.all && SameSandbox(x, y)
    ensures Good(s.(all := Replace(s.all, x, y)))
    ensures forall uid :: Known(s, uid) ==> Known(s.(all := Replace(s.all, x, y)), uid)
  {
    var s' := s.(all := Replace(s.all, x, y));
    ReplaceNamed(s.all, x, y);
    forall uid | Known(s, uid) ensures Known(s', uid) {
      var z :| z in s.all && z.uid == uid;
      assert (if z == x then y else z) in s'.all;
    }
    if s.job.Read? {
      var z :| z in s.all && SameSandbox(s.job.copy, z);
      assert (if z == x then y else z) in s'.all && SameSandbox(s.job.copy, if z == x then y else z);
    }
  }

  /** In `t` nobody holds or seeks a claim who did not in `s`. */
  ghost predicate Narrower(s: State, t: State) {
    && t.all <= s.all
    && (forall x, c :: Holds(t, x, c) ==> Holds(s, x, c))
    && (forall x, c, u :: x in t.all && Seeks(t, x, c, u) ==> Seeks(s, x, c, u))
  }

  lemma NarrowerFirm(s: State, t: State)
    requires Firm(s) && Narrower(s, t) && Good(t)
    requires forall uid :: uid in t.pods ==> Known(t, uid)
    requires forall y, c :: y in t.all && Wish(t, y, c) ==> Guards(y, c)
    ensures Firm(t)
  {
    forall y, c | y in t.all && Holds(t, y, c) ensures HolderFirm(t, y, c) {
      assert HolderFirm(s, y, c);
    }
    forall o, c | o in t.all && Seeks(t, o, c, true) ensures BlindFirm(t, o, c) {
      assert Seeks(s, o, c, true);
      assert BlindFirm(s, o, c);
      forall x, u | x in t.all && x != o && Seeks(t, x, c, u) ensures Wins(o, x) { assert Seeks(s, x, c, u); }
    }
  }

  /** The heart of the matter: a sandbox edited in an admitted way. */
  lemma ReplaceFirm(s: State, x: Sandbox, y: Sandbox)
    requires Firm(s) && x in s.all && SameSandbox(x, y) && Admits(s, x, y) && StaysOnGuard(s, x, y)
    ensures Firm(s.(all := Replace(s.all, x, y)))
  {
    var s' := s.(all := Replace(s.all, x, y));
    ReplaceGood(s, x, y);
    ReplaceNamed(s.all, x, y);
    forall z, c | z in s'.all && Holds(s', z, c) ensures HolderFirm(s', z, c) {
      if z == y { HolderReplaced(s, x, y, c); } else { HolderBeside(s, x, y, z, c); }
    }
    forall o, c | o in s'.all && Seeks(s', o, c, true) ensures BlindFirm(s', o, c) {
      BlindReplaced(s, x, y, o, c);
    }
  }

  lemma HolderReplaced(s: State, x: Sandbox, y: Sandbox, c: string)
    requires Firm(s) && x in s.all && SameSandbox(x, y) && StaysOnGuard(s, x, y) && Holds(s, x, c)
    ensures HolderFirm(s.(all := Replace(s.all, x, y)), y, c)
  {
    ReplaceNamed(s.all, x, y);
    assert HolderFirm(s, x, c);
  }

  lemma HolderBeside(s: State, x: Sandbox, y: Sandbox, z: Sandbox, c: string)
    requires Firm(s) && x in s.all && SameSandbox(x, y) && Admits(s, x, y)
    requires z in s.all && z != x && Holds(s, z, c)
    ensures HolderFirm(s.(all := Replace(s.all, x, y)), z, c)
  {
    ReplaceNamed(s.all, x, y);
    assert HolderFirm(s, z, c);
    WinsSame(x, y, z);
  }

  lemma BlindReplaced(s: State, x: Sandbox, y: Sandbox, o: Sandbox, c: string)
    requires Firm(s) && x in s.all && SameSandbox(x, y) && Admits(s, x, y)
    requires var s' := s.(all := Replace(s.all, x, y)); o in s'.all && Seeks(s', o, c, true)
    ensures BlindFirm(s.(all := Replace(s.all, x, y)), o, c)
  {
    var s' := s.(all := Replace(s.all, x, y));
    ReplaceNamed(s.all, x, y);
    forall z, u | z in s'.all && z != o && Seeks(s', z, c, u) ensures Wins(o, z) {
      if o == y {
        BlindNow(s, x, y, c, z, u);
      } else if z == y {
        BlindBefore(s, x, y, o, c, u);
      } else {
        assert Seeks(s, o, c, true) && Seeks(s, z, c, u) && BlindFirm(s, o, c);
      }
    }
  }

  lemma BlindNow(s: State, x: Sandbox, y: Sandbox, c: string, z: Sandbox, u: bool)
    requires Firm(s) && x in s.all && SameSandbox(x, y) && Admits(s, x, y)
    requires Seeks(s, y, c, true) && z in s.all && z != x && Seeks(s, z, c, u)
    ensures Wins(y, z)
  {
    WinsSame(x, y, z);
    if Wish(s, x, c) && Unchecked(s.job.copy) {
      assert Seeks(s, x, c, true);
      assert BlindFirm(s, x, c);
    }
  }

  lemma BlindBefore(s: State, x: Sandbox, y: Sandbox, o: Sandbox, c: string, u: bool)
    requires Firm(s) && x in s.all && SameSandbox(x, y) && Admits(s, x, y)
    requires o in s.all && o != x && Seeks(s, o, c, true) && Seeks(s, y, c, u)
    ensures Wins(o, y)
  {
    WinsSame(x, y, o);
    assert BlindFirm(s, o, c);
    if Wish(s, x, c) { assert Seeks(s, x, c, Unchecked(s.job.copy)); }
  }

  lemma CreateFirm(s: State, x: Sandbox)
    requires Firm(s) && Enabled(s, Create(x)) && Admits(s, x, x)
    ensures Firm(Apply(s, Create(x)))
  {
    var s' := Apply(s, Create(x));
    forall uid | Known(s, uid) ensures Known(s', uid) {
      var z :| z in s.all && z.uid == uid;
      assert z in s'.all;
    }
    NewcomerIdle(s, x);
    forall z, c | z in s'.all && Holds(s', z, c) ensures HolderFirm(s', z, c) { HolderBesideNew(s, x, z, c); }
    forall o, c | o in s'.all && Seeks(s', o, c, true) ensures BlindFirm(s', o, c) {
      forall z, u | z in s'.all && z != o && Seeks(s', z, c, u) ensures Wins(o, z) {
        if o != x && z != x { assert Seeks(s, o, c, true) && Seeks(s, z, c, u) && BlindFirm(s, o, c); }
        assert o != x ==> Seeks(s, o, c, true);
        assert z != x ==> Seeks(s, z, c, u);
      }
    }
  }

  /** A new sandbox has no pod and no pass. */
  lemma NewcomerIdle(s: State, x: Sandbox)
    requires Firm(s) && Enabled(s, Create(x))
    ensures forall c :: !Holds(s, x, c) && !Wish(s, x, c)
  {
    if s.job.Judged? { assert Known(s, s.job.uid); }
  }

  lemma HolderBesideNew(s: State, x: Sandbox, z: Sandbox, c: string)
    requires Firm(s) && Enabled(s, Create(x)) && Admits(s, x, x) && z in s.all && Holds(s, z, c)
    ensures HolderFirm(Apply(s, Create(x)), z, c)
  {
    NewcomerIdle(s, x);
    assert HolderFirm(s, z, c);
  }

  lemma RemoveFirm(s: State, x: Sandbox)
    requires Firm(s) && Enabled(s, Remove(x))
    ensures Firm(Apply(s, Remove(x)))
  {
    var s' := Apply(s, Remove(x));
    assert x.uid in s.pods ==> HolderFirm(s, x, s.pods[x.uid]) by { assert x.uid in s.pods ==> Holds(s, x, s.pods[x.uid]); }
    forall uid | uid in s.pods ensures Known(s', uid) {
      assert Known(s, uid);
      var z :| z in s.all && z.uid == uid;
      assert z in s'.all;
    }
    NarrowerFirm(s, s');
  }

  lemma BeginFirm(s: State, x: Sandbox, idle: bool)
    requires Firm(s) && Enabled(s, Begin(x, idle))
    ensures Firm(Apply(s, Begin(x, idle)))
  {
    var s' := Apply(s, Begin(x, idle));
    assert SameSandbox(x, x);
    forall z, c, u | z in s'.all && Seeks(s', z, c, u) ensures Seeks(s, z, c, u) { assert z.uid == x.uid ==> z == x; }
    forall z, c | z in s'.all && Wish(s', z, c) ensures Guards(z, c) {
      assert z == x;
      BlindGuards(x);
    }
    assert forall uid :: Known(s, uid) ==> Known(s', uid);
    NarrowerFirm(s, s');
  }

  lemma GeneratedBack(name: string)
    requires name != ""
    ensures OwnerOfGeneratedClaim(GeneratedClaim(name)) == Some(name)
  {
    assert GeneratedClaim(name)[|PREFIX|..] == name && GeneratedClaim(name)[..|PREFIX|] == PREFIX;
  }

  lemma SameOwner(a: string, b: string)
    requires GeneratedClaim(a) == GeneratedClaim(b)
    ensures a == b
  {
    assert GeneratedClaim(a)[|PREFIX|..] == a && GeneratedClaim(b)[|PREFIX|..] == b;
  }

  /** A guard of the claim that precedes a checked sandbox blocks it. */
  lemma GuardBlocks(all: set<Sandbox>, z: Sandbox, copy: Sandbox)
    requires z in all && z.uid != copy.uid && z.name != copy.name && Guards(z, ClaimOf(copy)) && Wins(z, copy)
    ensures Blocks(all, copy, ClaimOf(copy), z)
  {
  }

  /** Who seeks a claim without looking is a guard of it, seen by everyone else. */
  lemma BlindGuards(o: Sandbox)
    requires o.name != "" && !o.deleting && !o.stopped
    ensures Guards(o, ClaimOf(o))
  {
    GeneratedBack(o.name);
  }

  /** The sandbox whose pass is cleared to make a pod. */
  lemma JudgeMakes(s: State, y: Sandbox)
    requires Firm(s) && s.job.Read? && VerdictOn(s) == Make && y in s.all && y.uid == s.job.copy.uid
    ensures HolderFirm(Apply(s, Judge), y, ClaimOf(s.job.copy))
  {
    var s', copy := Apply(s, Judge), s.job.copy;
    var c := ClaimOf(copy);
    assert SameSandbox(copy, y);
    assert Wish(s, y, c) && Seeks(s, y, c, Unchecked(copy));
    forall x | x in s.all && x != y
      ensures !Holds(s', x, c) && !Seeks(s', x, c, true) && (Seeks(s', x, c, false) ==> Wins(y, x))
    {
      assert x.uid != y.uid && x.name != y.name;
      WinsSame(copy, y, x);
      WinsStrictTotalOrder(x, y, x);
      if Holds(s, x, c) {
        assert HolderFirm(s, x, c);
        GuardBlocks(s.all, x, copy);
      }
      SeekerYields(s, y, x);
    }
  }

  lemma SeekerYields(s: State, y: Sandbox, x: Sandbox)
    requires Firm(s) && s.job.Read? && VerdictOn(s) == Make && y in s.all && SameSandbox(s.job.copy, y)
    requires x in s.all && x != y && x.uid != y.uid && x.name != y.name
    ensures var c := ClaimOf(s.job.copy);
            !x.deleting && !x.stopped && ClaimOf(x) == c ==> !Unchecked(x) && Wins(y, x)
  {
    var copy := s.job.copy;
    var c := ClaimOf(copy);
    WinsSame(copy, y, x);
    WinsStrictTotalOrder(x, y, x);
    assert Wish(s, y, c) && Seeks(s, y, c, Unchecked(copy));
    if !x.deleting && !x.stopped && ClaimOf(x) == c {
      assert Seeks(s, x, c, Unchecked(x));
      if Unchecked(copy) {
        assert BlindFirm(s, y, c);
        if Unchecked(x) { SameOwner(x.name, copy.name); }
      } else {
        BlindGuards(x);
        assert Unchecked(x) ==> BlindFirm(s, x, c);
        assert !Blocks(s.all, copy, c, x);
      }
    }
  }

  lemma JudgeFirm(s: State)
    requires Firm(s) && s.job.Read?
    ensures Firm(Apply(s, Judge))
  {
    var s' := Apply(s, Judge);
    assert Known(s', s'.job.uid) by {
      var y :| y in s.all && SameSandbox(s.job.copy, y);
      assert y in s'.all;
    }
    assert forall uid :: Known(s, uid) ==> Known(s', uid);
    forall z, c, u | z in s'.all && Seeks(s', z, c, u) ensures Seeks(s, z, c, u) {}
    forall z, c | z in s'.all && Holds(s', z, c) ensures HolderFirm(s', z, c) {
      if Holds(s, z, c) {
        assert HolderFirm(s, z, c);
        JudgeBeside(s, z, c);
      } else {
        JudgeMakes(s, z);
      }
    }
    forall o, c | o in s'.all && Seeks(s', o, c, true) ensures BlindFirm(s', o, c) { assert BlindFirm(s, o, c); }
  }

  /** An earlier holder of a claim is not joined by the sandbox just judged. */
  lemma JudgeBeside(s: State, z: Sandbox, c: string)
    requires Firm(s) && s.job.Read? && z in s.all && Holds(s, z, c)
    ensures HolderFirm(Apply(s, Judge), z, c)
  {
    var s' := Apply(s, Judge);
    assert HolderFirm(s, z, c);
    forall x | x in s.all && x != z && Holds(s', x, c) ensures false {
      JudgeMakes(s, x);
      assert Holds(s', z, c);
    }
  }

  /** What a pass stores does not change who seeks what. */
  lemma SelfAdmits(s: State, x: Sandbox, y: Sandbox)
    requires Firm(s) && x in s.all && y == x.(suspended := y.suspended)
    ensures Admits(s, x, y)
  {
    var c := ClaimOf(x);
    if !y.deleting && !y.stopped {
      assert Seeks(s, x, c, Unchecked(x));
      WinsSameAll(x, y);
      forall z | z in s.all && z != x
        ensures Holds(s, z, c) ==> !Unchecked(y) && Wins(z, y)
        ensures Seeks(s, z, c, true) ==> Wins(z, y)
        ensures Unchecked(y) && (Seeks(s, z, c, true) || Seeks(s, z, c, false)) ==> Wins(y, z)
      {
        if Holds(s, z, c) { assert HolderFirm(s, z, c); }
        if Seeks(s, z, c, true) { assert BlindFirm(s, z, c); }
        if Unchecked(x) { assert BlindFirm(s, x, c); }
      }
    }
  }

  lemma WinsSameAll(a: Sandbox, a': Sandbox)
    requires SameSandbox(a, a')
    ensures forall b :: (Wins(a, b) <==> Wins(a', b)) && (Wins(b, a) <==> Wins(b, a'))
  {
  }

  /** The pass has done its part; what it stores comes next. */
  function Acted(s: State, x: Sandbox, done: bool): State
    requires s.job.Judged?
  {
    s.(job := Resting,
       pods := if s.job.verdict == Make && done && x.uid !in s.pods then s.pods[x.uid := s.job.claim] else s.pods)
  }

  lemma ActedFirm(s: State, x: Sandbox, done: bool)
    requires Firm(s) && s.job.Judged? && x in s.all && x.uid == s.job.uid
    ensures Firm(Acted(s, x, done))
  {
    var t := Acted(s, x, done);
    forall uid | uid in t.pods ensures Known(t, uid) {
      if uid in s.pods {
        assert Known(s, uid);
        var z :| z in s.all && z.uid == uid;
        assert z in t.all;
      } else {
        assert x in t.all && x.uid == uid;
      }
    }
    forall z, c | Holds(t, z, c) ensures Holds(s, z, c) {}
    forall z, c, u | z in t.all && Seeks(t, z, c, u) ensures Seeks(s, z, c, u) {}
    NarrowerFirm(s, t);
  }

  lemma ActFirm(s: State, x: Sandbox, done: bool, stored: bool)
    requires Firm(s) && Enabled(s, Act(x, done, stored))
    ensures Firm(Apply(s, Act(x, done, stored)))
  {
    var y, t := Stored(s, x, done, stored), Acted(s, x, done);
    ActedFirm(s, x, done);
    SelfAdmits(t, x, y);
    forall c | Holds(t, x, c) || Wish(t, x, c) ensures Guards(y, c) { assert HolderFirm(t, x, c); }
    ReplaceFirm(t, x, y);
    assert Apply(s, Act(x, done, stored)) == t.(all := Replace(t.all, x, y));
  }

  lemma GoneFirm(s: State, uid: string)
    requires Firm(s)
    ensures Firm(s.(pods := s.pods - {uid}))
  {
    var s' := s.(pods := s.pods - {uid});
    assert forall u :: Known(s, u) ==> Known(s', u);
    NarrowerFirm(s, s');
  }

  lemma TickFirm(s: State, to: Time)
    requires Firm(s) && s.now <= to
    ensures Firm(s.(now := to))
  {
    var s' := s.(now := to);
    assert forall u :: Known(s, u) ==> Known(s', u);
    NarrowerFirm(s, s');
  }

  lemma FirmStep(s: State, e: Event)
    requires Firm(s) && Enabled(s, e) && Admitted(s, e)
    ensures Firm(Apply(s, e))
  {
    match e
    case Tick(to) => TickFirm(s, to);
    case Create(x) => CreateFirm(s, x);
    case Edit(x, stopped, claim) => ReplaceFirm(s, x, x.(stopped := stopped, existingClaim := claim));
    case Delete(x) => ReplaceFirm(s, x, x.(deleting := true));
    case Remove(x) => RemoveFirm(s, x);
    case Begin(x, idle) => BeginFirm(s, x, idle);
    case Judge => JudgeFirm(s);
    case Act(x, done, stored) => ActFirm(s, x, done, stored);
    case PodGone(uid) => GoneFirm(s, uid);
  }

  ghost predicate AdmittedRun(s: State, es: seq<Event>)
    requires Legal(s, es)
    decreases |es|
  {
    es == [] || (Admitted(s, es[0]) && AdmittedRun(Apply(s, es[0]), es[1..]))
  }

  lemma EmptyFirm()
    ensures Firm(EMPTY)
  {
  }

  /** As long as users stick to admitted steps no two pods ever use the same claim,
      whatever passes do, fail to do or fail to store, and however pods vanish. */
  lemma {:induction false} OnePodPerClaim(s: State, es: seq<Event>)
    requires Firm(s) && Legal(s, es) && AdmittedRun(s, es)
    ensures Firm(Exec(s, es)) && OnePod(Exec(s, es))
    decreases |es|
  {
    FirmOnePod(s);
    if es != [] {
      FirmStep(s, es[0]);
      OnePodPerClaim(Apply(s, es[0]), es[1..]);
    }
  }

  // ------------------------------------------------ every other step is fatal

  /** Admitted steps lead from `s` to `t`. */
  ghost predicate Goes(s: State, t: State) {
    exists es :: Legal(s, es) && AdmittedRun(s, es) && Exec(s, es) == t
  }

  lemma GoesRefl(s: State)
    ensures Goes(s, s)
  {
    assert Legal(s, []) && AdmittedRun(s, []) && Exec(s, []) == s;
  }

  lemma GoesFirst(s: State, e: Event, t: State)
    requires Enabled(s, e) && Admitted(s, e) && Goes(Apply(s, e), t)
    ensures Goes(s, t)
  {
    var es :| Legal(Apply(s, e), es) && AdmittedRun(Apply(s, e), es) && Exec(Apply(s, e), es) == t;
    var fs := [e] + es;
    assert fs[0] == e && fs[1..] == es;
    assert Legal(s, fs) && AdmittedRun(s, fs) && Exec(s, fs) == t;
  }

  lemma {:induction false} GoesRun(s: State, es: seq<Event>, t: State)
    requires Legal(s, es) && AdmittedRun(s, es) && Goes(Exec(s, es), t)
    ensures Goes(s, t)
    decreases |es|
  {
    if es != [] {
      GoesRun(Apply(s, es[0]), es[1..], t);
      GoesFirst(s, es[0], t);
    }
  }

  lemma GoesTrans(s: State, t: State, v: State)
    requires Goes(s, t) && Goes(t, v)
    ensures Goes(s, v)
  {
    var es :| Legal(s, es) && AdmittedRun(s, es) && Exec(s, es) == t;
    GoesRun(s, es, v);
  }

  lemma GoesThen(s: State, t: State, e: Event)
    requires Goes(s, t) && Enabled(t, e) && Admitted(t, e)
    ensures Goes(s, Apply(t, e))
  {
    GoesRefl(Apply(t, e));
    GoesFirst(t, e, Apply(t, e));
    GoesTrans(s, t, Apply(t, e));
  }

  /** Two pods on one claim can still happen, by admitted steps alone. */
  ghost predicate Doomed(s: State) {
    exists t :: Goes(s, t) && !OnePod(t)
  }

  lemma DoomedBefore(s: State, t: State)
    requires Goes(s, t) && Doomed(t)
    ensures Doomed(s)
  {
    var v :| Goes(t, v) && !OnePod(v);
    GoesTrans(s, t, v);
  }

  /** The pass in flight ends without doing anything. */
  lemma Settle(s: State) returns (t: State)
    requires Good(s)
    ensures Goes(s, t) && t == s.(job := Resting)
  {
    GoesRefl(s);
    t := s;
    if s.job.Read? {
      var y :| y in s.all && SameSandbox(s.job.copy, y);
      GoesThen(s, t, Judge);
      t := Apply(t, Judge);
    }
    if t.job.Judged? {
      assert Known(t, t.job.uid);
      var x :| x in t.all && x.uid == t.job.uid;
      GoesThen(s, t, Act(x, false, false));
      assert Replace(t.all, x, x) == t.all;
      t := Apply(t, Act(x, false, false));
    }
  }

  /** A pod vanishes, if there is one. */
  lemma Vanish(s: State, uid: string) returns (t: State)
    ensures Goes(s, t) && t == s.(pods := s.pods - {uid})
  {
    GoesRefl(s);
    t := s;
    if uid in s.pods {
      GoesThen(s, s, PodGone(uid));
      t := Apply(s, PodGone(uid));
    } else {
      assert s.pods - {uid} == s.pods;
    }
  }

  /** A holder that only awaits its pod gets it. */
  lemma Realise(s: State, y: Sandbox, c: string) returns (t: State)
    requires Good(s) && y in s.all && Holds(s, y, c)
    ensures Goes(s, t) && Good(t) && t.all == s.all && t.now == s.now && t.job.Resting?
    ensures y.uid in t.pods && t.pods[y.uid] == c
  {
    if y.uid in s.pods && s.pods[y.uid] == c {
      t := Settle(s);
    } else {
      var v := Vanish(s, y.uid);
      GoesThen(s, v, Act(y, true, false));
      assert Replace(v.all, y, y) == v.all;
      t := Apply(v, Act(y, true, false));
    }
  }

  ghost function Blockers(all: set<Sandbox>, copy: Sandbox): set<Sandbox> {
    set z | z in all && Blocks(all, copy, ClaimOf(copy), z)
  }

  /** The first blocker's pod vanishes and it is deleted. */
  lemma DropBlocker(s: State, copy: Sandbox, b: Sandbox) returns (t: State)
    requires Good(s) && s.job == Read(copy, false) && Blocks(s.all, copy, ClaimOf(copy), b)
    ensures Goes(s, t) && Good(t)
    ensures t == s.(all := Replace(s.all, b, b.(deleting := true)), pods := s.pods - {b.uid})
    ensures Blockers(t.all, copy) == Blockers(s.all, copy) - {b}
  {
    var v := Vanish(s, b.uid);
    assert forall c :: !Holds(v, b, c) && !Wish(v, b, c);
    GoesThen(s, v, Delete(b));
    t := Apply(v, Delete(b));
    ReplaceNamed(s.all, b, b.(deleting := true));
    ReplaceGood(v, b, b.(deleting := true));
  }

  /** The way of a pass is cleared, the sandboxes `keep` and the pods `pods` untouched. */
  lemma {:induction false} ClearWay(s: State, copy: Sandbox, keep: set<Sandbox>, pods: set<string>) returns (t: State)
    requires Good(s) && s.job == Read(copy, false) && keep <= s.all
    requires forall b :: b in Blockers(s.all, copy) ==> b !in keep && b.uid !in pods
    ensures Goes(s, t) && Good(t) && t.job == s.job && t.now == s.now && keep <= t.all
    ensures Blockers(t.all, copy) == {}
    ensures forall uid :: uid in pods && uid in s.pods ==> uid in t.pods && t.pods[uid] == s.pods[uid]
    ensures forall uid :: uid in t.pods ==> uid in s.pods
    decreases |Blockers(s.all, copy)|
  {
    if Blockers(s.all, copy) == {} {
      GoesRefl(s);
      return s;
    }
    var b :| b in Blockers(s.all, copy);
    var v := DropBlocker(s, copy, b);
    t := ClearWay(v, copy, keep, pods);
    GoesTrans(s, v, t);
  }

  /** A pass that read the sandbox as one to run gets its pod. */
  lemma Fulfil(s: State, copy: Sandbox, keep: set<Sandbox>, pods: set<string>) returns (t: State)
    requires Good(s) && s.job == Read(copy, false) && !copy.stopped && keep <= s.all && copy.uid !in pods
    requires !Unchecked(copy) ==> forall b :: b in Blockers(s.all, copy) ==> b !in keep && b.uid !in pods
    ensures Goes(s, t) && Good(t) && t.job.Resting? && t.now == s.now && keep <= t.all
    ensures copy.uid in t.pods && t.pods[copy.uid] == ClaimOf(copy)
    ensures forall uid :: uid in pods && uid in s.pods ==> uid in t.pods && t.pods[uid] == s.pods[uid]
  {
    var v := Vanish(s, copy.uid);
    if !Unchecked(copy) {
      var v' := ClearWay(v, copy, keep, pods);
      GoesTrans(s, v, v');
      v := v';
    }
    t := MakePod(v, copy);
    GoesTrans(s, v, t);
  }

  lemma MakePod(s: State, copy: Sandbox) returns (t: State)
    requires Good(s) && s.job == Read(copy, false) && !copy.stopped && copy.uid !in s.pods
    requires Unchecked(copy) || Blockers(s.all, copy) == {}
    ensures Goes(s, t) && Good(t)
    ensures t == s.(job := Resting, pods := s.pods[copy.uid := ClaimOf(copy)])
  {
    var y :| y in s.all && SameSandbox(copy, y);
    assert Free(s.all, copy) by {
      if !Unchecked(copy) {
        forall b ensures !Blocks(s.all, copy, ClaimOf(copy), b) { assert b !in Blockers(s.all, copy); }
      }
    }
    GoesRefl(s);
    GoesThen(s, s, Judge);
    var v := s.(job := Judged(copy.uid, ClaimOf(copy), Make));
    assert Apply(s, Judge) == v;
    GoesThen(s, v, Act(y, true, false));
    assert Replace(v.all, y, y) == v.all;
    t := Apply(v, Act(y, true, false));
  }

  /** A wanted sandbox gets its pod. */
  lemma FulfilWanted(s: State, x: Sandbox, keep: set<Sandbox>, pods: set<string>) returns (t: State)
    requires Good(s) && x in s.all && !x.deleting && !x.stopped && keep <= s.all && x.uid !in pods
    requires !Unchecked(x) ==> forall b :: b in Blockers(s.all, x) ==> b !in keep && b.uid !in pods
    ensures Goes(s, t) && Good(t) && t.job.Resting? && t.now == s.now && keep <= t.all
    ensures x.uid in t.pods && t.pods[x.uid] == ClaimOf(x)
    ensures forall uid :: uid in pods && uid in s.pods ==> uid in t.pods && t.pods[uid] == s.pods[uid]
  {
    var v := Settle(s);
    GoesThen(s, v, Begin(x, false));
    assert SameSandbox(x, x);
    t := Fulfil(Apply(v, Begin(x, false)), x, keep, pods);
    GoesTrans(s, Apply(v, Begin(x, false)), t);
  }

  /** A pod on the claim that a wanted sandbox can get a pod on, too. */
  lemma SecondPod(s: State, uid: string, x: Sandbox)
    requires Good(s) && x in s.all && !x.deleting && !x.stopped
    requires uid in s.pods && s.pods[uid] == ClaimOf(x) && uid != x.uid
    requires Unchecked(x) || forall b :: b in Blockers(s.all, x) ==> b.uid != uid
    ensures Doomed(s)
  {
    var t := FulfilWanted(s, x, {}, {uid});
    assert t.pods[uid] == t.pods[x.uid];
  }

  /** Whoever seeks the claim gets a pod on it. */
  lemma SeekerServed(s: State, z: Sandbox, c: string, u: bool, y: Sandbox) returns (t: State)
    requires Good(s) && z in s.all && y in s.all && y != z && Seeks(s, z, c, u) && (u || !Wins(y, z))
    ensures Goes(s, t) && Good(t) && z in t.all && y in t.all && z.uid in t.pods && t.pods[z.uid] == c
  {
    if Wish(s, z, c) && Unchecked(s.job.copy) == u {
      var copy := s.job.copy;
      CopyIs(s, z);
      WinsSame(copy, z, y);
      t := Fulfil(s, copy, {y, z}, {});
    } else {
      t := FulfilWanted(s, z, {y, z}, {});
    }
  }

  lemma CopyIs(s: State, z: Sandbox)
    requires Good(s) && z in s.all && s.job.Read? && s.job.copy.uid == z.uid
    ensures SameSandbox(s.job.copy, z)
  {
    var y :| y in s.all && SameSandbox(s.job.copy, y);
    assert y == z;
  }

  /** A newcomer `y` that `z` does not admit. */
  lemma NewcomerDooms(s: State, y: Sandbox, z: Sandbox)
    requires Good(s) && y in s.all && z in s.all && z != y && !y.deleting && !y.stopped
    requires var c := ClaimOf(y);
             || (Holds(s, z, c) && (Unchecked(y) || !Wins(z, y)))
             || (Seeks(s, z, c, true) && !Wins(z, y))
             || (Unchecked(y) && (Seeks(s, z, c, true) || Seeks(s, z, c, false)) && !Wins(y, z))
    ensures Doomed(s)
  {
    var c := ClaimOf(y);
    var t: State;
    if Holds(s, z, c) && (Unchecked(y) || !Wins(z, y)) {
      t := Realise(s, z, c);
    } else if Seeks(s, z, c, true) && !Wins(z, y) {
      t := SeekerServed(s, z, c, true, y);
    } else {
      t := SeekerServed(s, z, c, Seeks(s, z, c, true), y);
    }
    forall b | b in Blockers(t.all, y) && !Unchecked(y) ensures b.uid != z.uid { assert b.uid == z.uid ==> b == z; }
    SecondPod(t, z.uid, y);
    DoomedBefore(s, t);
  }

  lemma {:induction false} Longer(names: set<string>) returns (n: nat)
    ensures forall a :: a in names ==> |a| < n
    decreases |names|
  {
    if names == {} { return 0; }
    var a :| a in names;
    var m := Longer(names - {a});
    n := if |a| < m then m else |a| + 1;
    forall b | b in names ensures |b| < n { assert b == a || b in names - {a}; }
  }

  /** A sandbox with a pod that the check no longer sees. */
  lemma UnguardedDooms(s: State, y: Sandbox, c: string)
    requires Good(s) && y in s.all && (Holds(s, y, c) || Wish(s, y, c)) && !Guards(y, c)
    ensures Doomed(s)
  {
    var t: State;
    if Holds(s, y, c) {
      t := Realise(s, y, c);
    } else {
      CopyIs(s, y);
      t := Fulfil(s, s.job.copy, {y}, {});
    }
    var n := Newcomer(t, c);
    var v := t.(now := t.now + 1);
    GoesThen(s, t, Tick(t.now + 1));
    GoesThen(s, v, Create(n));
    var q := Apply(v, Create(n));
    assert Good(q);
    forall b | b in Blockers(q.all, n) ensures b.uid != y.uid { assert b.uid == y.uid ==> b == y; }
    SecondPod(q, y.uid, n);
    DoomedBefore(s, q);
  }

  /** A name and UID that nothing has. */
  lemma FreshId(s: State) returns (id: string)
    ensures id != "" && id !in s.pods && forall x :: x in s.all ==> x.name != id && x.uid != id
  {
    var names, uids := set x | x in s.all :: x.name, set x | x in s.all :: x.uid;
    var n := Longer(names + uids + s.pods.Keys);
    id := seq(n + 1, _ => 'a');
    forall x | x in s.all ensures x.name != id && x.uid != id {
      assert x.name in names && x.uid in uids;
    }
    assert id !in s.pods.Keys;
  }

  /** A sandbox created a moment later that names the claim. */
  lemma Newcomer(s: State, c: string) returns (n: Sandbox)
    requires Good(s) && s.job.Resting? && c != ""
    ensures var v := s.(now := s.now + 1); Enabled(v, Create(n)) && Admitted(v, Create(n))
    ensures n.existingClaim == c && !n.deleting && !n.stopped
    ensures Good(s.(now := s.now + 1, all := s.all + {n})) && n.uid !in s.pods
  {
    var id := FreshId(s);
    n := Sandbox(id, id, s.now + 1, false, false, false, c);
    YoungestAdmitted(s.(now := s.now + 1), n);
  }

  lemma YoungestAdmitted(s: State, n: Sandbox)
    requires !Unchecked(n) && forall z :: z in s.all ==> z.created < n.created
    ensures Admits(s, n, n)
  {
  }

  /** The admitted steps are exactly those after which one pod per claim can be kept: any
      other step leads, by admitted steps alone, to two pods on one claim. */
  lemma AdmittedExactly(s: State, e: Event)
    requires Firm(s) && Enabled(s, e)
    ensures Admitted(s, e) <==> !Doomed(Apply(s, e))
  {
    if Admitted(s, e) {
      FirmStep(s, e);
      FirmNotDoomed(Apply(s, e));
    } else {
      match e
      case Create(x) =>
        NewcomerIdle(s, x);
        CreateGood(s, x);
        RefusedDooms(s, Apply(s, e), x, x);
      case Edit(x, stopped, claim) =>
        var y := x.(stopped := stopped, existingClaim := claim);
        ReplaceGood(s, x, y);
        RefusedDooms(s, Apply(s, e), x, y);
      case Delete(x) =>
        ReplaceGood(s, x, x.(deleting := true));
        RefusedDooms(s, Apply(s, e), x, x.(deleting := true));
    }
  }

  lemma FirmNotDoomed(s: State)
    requires Firm(s)
    ensures !Doomed(s)
  {
    forall t | Goes(s, t) ensures OnePod(t) {
      var es :| Legal(s, es) && AdmittedRun(s, es) && Exec(s, es) == t;
      OnePodPerClaim(s, es);
    }
  }

  lemma CreateGood(s: State, x: Sandbox)
    requires Good(s) && Enabled(s, Create(x))
    ensures Good(Apply(s, Create(x)))
  {
    var s' := Apply(s, Create(x));
    if s.job.Judged? {
      assert Known(s, s.job.uid);
      var y :| y in s.all && y.uid == s.job.uid;
      assert y in s'.all;
    }
    if s.job.Read? {
      var y :| y in s.all && SameSandbox(s.job.copy, y);
      assert y in s'.all;
    }
  }

  lemma RefusedDooms(s: State, s': State, x: Sandbox, y: Sandbox)
    requires Firm(s) && Good(s') && s' == s.(all := s'.all) && y in s'.all && x.uid == y.uid
    requires forall z :: z in s.all && z != x ==> z in s'.all && z != y
    requires !Admits(s, x, y) || !StaysOnGuard(s, x, y)
    ensures Doomed(s')
  {
    if !StaysOnGuard(s, x, y) {
      var c :| (Holds(s, x, c) || Wish(s, x, c)) && !Guards(y, c);
      UnguardedDooms(s', y, c);
    } else {
      var c := ClaimOf(y);
      var z :| z in s.all && z != x
               && !(&& (Holds(s, z, c) ==> !Unchecked(y) && Wins(z, y))
                    && (Seeks(s, z, c, true) ==> Wins(z, y))
                    && (Unchecked(y) && (Seeks(s, z, c, true) || Seeks(s, z, c, false)) ==> Wins(y, z)));
      assert Holds(s', z, c) == Holds(s, z, c) && Seeks(s', z, c, true) == Seeks(s, z, c, true);
      assert Seeks(s', z, c, false) == Seeks(s, z, c, false);
      NewcomerDooms(s', y, z);
    }
  }

  // ----------------------------------------------------------- two such steps

  /** A stopped and suspended sandbox that names the claim, and nothing else. */
  lemma StoppedFirst() returns (s: State, o: Sandbox)
    ensures Goes(EMPTY, s) && Good(s) && s == State(0, {o}, map[], Resting)
    ensures o == Sandbox("o", "u1", 0, false, true, true, "vol")
  {
    var o0 := Sandbox("o", "u1", 0, false, false, false, "vol");
    var o1 := o0.(stopped := true);
    o := o1.(suspended := true);
    GoesRefl(EMPTY);
    GoesThen(EMPTY, EMPTY, Create(o0));
    var s0 := State(0, {o0}, map[], Resting);
    assert Apply(EMPTY, Create(o0)) == s0;
    GoesThen(EMPTY, s0, Edit(o0, true, "vol"));
    var s1 := State(0, {o1}, map[], Resting);
    assert Apply(s0, Edit(o0, true, "vol")) == s1;
    GoesThen(EMPTY, s1, Begin(o1, false));
    var s2 := s1.(job := Read(o1, false));
    GoesThen(EMPTY, s2, Judge);
    var s3 := s1.(job := Judged("u1", "vol", Sleep));
    assert Apply(s2, Judge) == s3;
    GoesThen(EMPTY, s3, Act(o1, true, true));
    s := State(0, {o}, map[], Resting);
    assert Apply(s3, Act(o1, true, true)) == s;
  }

  /** An older sandbox is stopped and suspended, a newer one gets a pod on the claim, and
      the older one is started again: it is cleared, the newer one is blocked and keeps
      its pod, and both use the claim. */
  lemma RestartSharesClaim() returns (s: State, e: Event)
    ensures Goes(EMPTY, s) && OnePod(s) && Enabled(s, e) && e.Edit? && Doomed(Apply(s, e))
    ensures e.x == Sandbox("o", "u1", 0, false, true, true, "vol") && !e.stopped && e.claim == "vol"
    ensures "u2" in s.pods && s.pods["u2"] == "vol"
  {
    var s0, o := StoppedFirst();
    var y := Sandbox("y", "u2", 1, false, false, false, "vol");
    GoesThen(EMPTY, s0, Tick(1));
    var s1 := s0.(now := 1);
    assert "u1"[1] != "u2"[1];
    assert Admits(s1, y, y);
    GoesThen(EMPTY, s1, Create(y));
    var s2 := State(1, {o, y}, map[], Resting);
    assert Apply(s1, Create(y)) == s2;
    assert Blockers(s2.all, y) == {};
    s := FulfilWanted(s2, y, {o, y}, {});
    GoesTrans(EMPTY, s2, s);
    e := Edit(o, false, "vol");
    Reached(s);
    assert Holds(s, y, "vol") && !Admits(s, o, o.(stopped := false));
    AdmittedExactly(s, e);
  }

  lemma Reached(s: State)
    requires Goes(EMPTY, s)
    ensures Firm(s) && OnePod(s)
  {
    var es :| Legal(EMPTY, es) && AdmittedRun(EMPTY, es) && Exec(EMPTY, es) == s;
    EmptyFirm();
    OnePodPerClaim(EMPTY, es);
  }

  /** An older sandbox names the claim generated for a newer one and has a pod on it; the
      newer one is created and never checked. */
  lemma GeneratedNameSharesClaim() returns (s: State, e: Event)
    ensures Goes(EMPTY, s) && OnePod(s) && Enabled(s, e) && Doomed(Apply(s, e))
    ensures e == Create(Sandbox("b", "u2", 1, false, false, false, ""))
    ensures "u1" in s.pods && s.pods["u1"] == "kubepark-home-b"
  {
    var a, b := Sandbox("a", "u1", 0, false, false, false, "kubepark-home-b"), Sandbox("b", "u2", 1, false, false, false, "");
    assert GeneratedClaim("b") == "kubepark-home-b" && "u1"[1] != "u2"[1];
    s := NamedFirst(a);
    e := Create(b);
    Reached(s);
    assert Holds(s, a, "kubepark-home-b") && !Admits(s, b, b);
    AdmittedExactly(s, e);
  }

  /** A sandbox that was created first, alone, has its pod. */
  lemma NamedFirst(a: Sandbox) returns (s: State)
    requires a == Sandbox(a.name, a.uid, 0, false, false, false, a.existingClaim) && a.name != "" && a.existingClaim != ""
    ensures Goes(EMPTY, s) && s == State(1, {a}, map[a.uid := a.existingClaim], Resting)
  {
    GoesRefl(EMPTY);
    GoesThen(EMPTY, EMPTY, Create(a));
    var s0 := State(0, {a}, map[], Resting);
    assert Apply(EMPTY, Create(a)) == s0;
    GoesThen(EMPTY, s0, Tick(1));
    var s1 := s0.(now := 1);
    assert Blockers(s1.all, a) == {};
    s := FulfilOnly(s1, a);
    GoesTrans(EMPTY, s1, s);
  }

  /** A sandbox that is alone gets its pod, and nothing else happens. */
  lemma FulfilOnly(s: State, x: Sandbox) returns (t: State)
    requires Good(s) && s == State(s.now, {x}, map[], Resting) && !x.deleting && !x.stopped && Blockers(s.all, x) == {}
    ensures Goes(s, t) && t == s.(pods := map[x.uid := ClaimOf(x)])
  {
    GoesRefl(s);
    GoesThen(s, s, Begin(x, false));
    assert SameSandbox(x, x);
    var v := s.(job := Read(x, false));
    t := MakePod(v, x);
    GoesTrans(s, v, t);
  }
}
