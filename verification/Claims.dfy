/** Which of several sandboxes naming the same home volume may use it. */
module Claims {
  import opened Base

  datatype Sandbox = Sandbox(name: string, uid: string, created: Time, deleting: bool,
                             stopped: bool, suspended: bool, existingClaim: string)

  const PREFIX := "kubepark-home-"

  function GeneratedClaim(name: string): string {
    PREFIX + name
  }

  /** The sandbox name a generated claim name stands for. */
  function OwnerOfGeneratedClaim(claim: string): Option<string> {
    if |claim| > |PREFIX| && claim[..|PREFIX|] == PREFIX then Some(claim[|PREFIX|..]) else None
  }

  /** Go's `<` on strings. */
  predicate Less(a: string, b: string) {
    b != "" && (a == "" || a[0] < b[0] || (a[0] == b[0] && Less(a[1..], b[1..])))
  }

  lemma OwnerExactly(claim: string, name: string)
    ensures OwnerOfGeneratedClaim(claim) == Some(name) <==> name != "" && claim == "kubepark-home-" + name
  {
    if claim == PREFIX + name { assert claim[|PREFIX|..] == name; }
    if OwnerOfGeneratedClaim(claim) == Some(name) { assert claim == claim[..|PREFIX|] + claim[|PREFIX|..]; }
  }

  /** The texts agree up to `i`, where `a` ends or holds the smaller character. */
  predicate DiffersAt(a: string, b: string, i: nat) {
    i <= |a| && i < |b| && a[..i] == b[..i] && (i == |a| || a[i] < b[i])
  }

  /** The order of dictionaries. */
  lemma {:induction false} LessExactly(a: string, b: string)
    ensures Less(a, b) <==> exists i: nat :: DiffersAt(a, b, i)
  {
    if b != "" && (a == "" || a[0] < b[0]) {
      assert DiffersAt(a, b, 0);
    } else if a != "" && b != "" && a[0] == b[0] {
      LessExactly(a[1..], b[1..]);
      if Less(a[1..], b[1..]) {
        var i: nat :| DiffersAt(a[1..], b[1..], i);
        assert a[..i + 1] == [a[0]] + a[1..][..i] && b[..i + 1] == [b[0]] + b[1..][..i];
        assert DiffersAt(a, b, i + 1);
      }
      if i: nat :| DiffersAt(a, b, i) {
        assert i > 0 && a[1..][..i - 1] == a[..i][1..] && b[1..][..i - 1] == b[..i][1..];
        assert DiffersAt(a[1..], b[1..], i - 1);
      }
    }
  }

  /** Older creation wins; the UID breaks ties. */
  predicate Wins(a: Sandbox, b: Sandbox) {
    if a.created != b.created then a.created < b.created else Less(a.uid, b.uid)
  }

  // ---------------------------------------------------- a strict total order

  lemma {:induction false} LessIrreflexive(a: string)
    ensures !Less(a, a)
  {
    if a != "" { LessIrreflexive(a[1..]); }
  }

  lemma {:induction false} LessTransitive(a: string, b: string, c: string)
    requires Less(a, b) && Less(b, c)
    ensures Less(a, c)
  {
    if a != "" && a[0] == b[0] && b[0] == c[0] { LessTransitive(a[1..], b[1..], c[1..]); }
  }

  lemma {:induction false} LessTotal(a: string, b: string)
    ensures a == b || Less(a, b) || Less(b, a)
  {
    if a != "" && b != "" && a[0] == b[0] {
      LessTotal(a[1..], b[1..]);
      assert a == [a[0]] + a[1..] && b == [b[0]] + b[1..];
    }
  }

  /** The tie-break is a strict total order over distinct UIDs. */
  lemma WinsStrictTotalOrder(a: Sandbox, b: Sandbox, c: Sandbox)
    ensures !Wins(a, a)
    ensures !(Wins(a, b) && Wins(b, a))
    ensures Wins(a, b) && Wins(b, c) ==> Wins(a, c)
    ensures a.uid != b.uid ==> Wins(a, b) || Wins(b, a)
  {
    LessIrreflexive(a.uid);
    LessTotal(a.uid, b.uid);
    if Less(a.uid, b.uid) && Less(b.uid, a.uid) { LessTransitive(a.uid, b.uid, a.uid); }
    if Less(a.uid, b.uid) && Less(b.uid, c.uid) { LessTransitive(a.uid, b.uid, c.uid); }
  }

  // ------------------------------------------------------------- arbitration

  predicate Contends(x: Sandbox) {
    !x.deleting && !(x.stopped && x.suspended)
  }

  /** Candidates `ClaimConflict` looks at: those naming the claim, and the
      sandbox whose generated name it is. */
  ghost predicate Candidate(all: set<Sandbox>, sb: Sandbox, claim: string, x: Sandbox) {
    && x in all
    && (x.existingClaim == claim
        || (OwnerOfGeneratedClaim(claim) == Some(x.name) && x.name != sb.name))
  }

  ghost predicate Blocks(all: set<Sandbox>, sb: Sandbox, claim: string, x: Sandbox) {
    Candidate(all, sb, claim, x) && x.uid != sb.uid && Contends(x) && Wins(x, sb)
  }

  ghost function Elems(all: seq<Sandbox>): set<Sandbox> {
    set x | x in all
  }

  method FindByName(all: seq<Sandbox>, name: string) returns (r: Option<Sandbox>)
    ensures r.Some? ==> r.value in all && r.value.name == name
    ensures r.None? ==> forall x :: x in all ==> x.name != name
  {
    for i := 0 to |all|
      invariant forall j :: 0 <= j < i ==> all[j].name != name
    {
      if all[i].name == name { return Some(all[i]); }
    }
    return None;
  }

  method ListByClaim(all: seq<Sandbox>, claim: string) returns (r: seq<Sandbox>)
    ensures forall x :: x in r <==> x in all && x.existingClaim == claim
  {
    r := [];
    for i := 0 to |all|
      invariant forall x :: x in r <==> x in all[..i] && x.existingClaim == claim
    {
      assert all[..i + 1] == all[..i] + [all[i]];
      if all[i].existingClaim == claim { r := r + [all[i]]; }
    }
    assert all[..|all|] == all;
  }

  /** Names are unique in a namespace, UIDs everywhere; both are never empty. */
  ghost predicate WellNamed(all: set<Sandbox>) {
    forall x, y :: x in all && y in all ==>
      x.name != "" && (x.name == y.name ==> x == y) && (x.uid == y.uid ==> x == y)
  }

  /** The name of a contending sandbox that uses the claim and wins, or "". */
  method ClaimConflict(all: seq<Sandbox>, sb: Sandbox, claim: string) returns (conflict: string)
    requires WellNamed(Elems(all))
    ensures conflict == "" <==> forall x :: !Blocks(Elems(all), sb, claim, x)
    ensures conflict != "" ==> exists x :: Blocks(Elems(all), sb, claim, x) && x.name == conflict
    ensures conflict == "" <==>
              forall x :: x in all && x.uid != sb.uid && !x.deleting && !(x.stopped && x.suspended)
                          && (x.existingClaim == claim || (claim == "kubepark-home-" + x.name && x.name != sb.name)) ==>
                !(x.created < sb.created || (x.created == sb.created && Less(x.uid, sb.uid)))
  {
    var candidates := ListByClaim(all, claim);
    var owner := OwnerOfGeneratedClaim(claim);
    if owner.Some? && owner.value != sb.name {
      var ownerSb := FindByName(all, owner.value);
      if ownerSb.Some? { candidates := candidates + [ownerSb.value]; }
    }
    assert forall x :: x in candidates <==> Candidate(Elems(all), sb, claim, x);
    forall x | x in all
      ensures Candidate(Elems(all), sb, claim, x) <==>
                x.existingClaim == claim || (claim == "kubepark-home-" + x.name && x.name != sb.name)
    {
      OwnerExactly(claim, x.name);
    }
    assert forall x :: Blocks(Elems(all), sb, claim, x) ==> x in all;
    for i := 0 to |candidates|
      invariant forall j :: 0 <= j < i ==> !Blocks(Elems(all), sb, claim, candidates[j])
    {
      var other := candidates[i];
      if other.uid == sb.uid || other.deleting { continue; }
      if other.stopped && other.suspended { continue; }
      if Wins(other, sb) {
        assert Blocks(Elems(all), sb, claim, other);
        return other.name;
      }
    }
    return "";
  }

  /** What a sandbox learns from `ClaimConflict`. */
  ghost predicate Unblocked(all: set<Sandbox>, sb: Sandbox, claim: string) {
    forall x :: !Blocks(all, sb, claim, x)
  }

  /** A live contender for the claim. */
  ghost predicate Contender(all: set<Sandbox>, claim: string, x: Sandbox) {
    x in all && x.existingClaim == claim && Contends(x)
  }

  ghost function Contenders(all: set<Sandbox>, claim: string): set<Sandbox> {
    set x | x in all && x.existingClaim == claim && Contends(x)
  }

  ghost predicate First(s: set<Sandbox>, x: Sandbox) {
    x in s && forall y :: y in s && y != x ==> Wins(x, y)
  }

  ghost predicate DistinctUids(s: set<Sandbox>) {
    forall x, y :: x in s && y in s && x.uid == y.uid ==> x == y
  }

  lemma FirstUnique(s: set<Sandbox>, x: Sandbox, y: Sandbox)
    requires First(s, x) && First(s, y)
    ensures x == y
  {
    if x != y { WinsStrictTotalOrder(x, y, x); }
  }

  lemma {:induction false} FirstExists(s: set<Sandbox>) returns (x: Sandbox)
    requires s != {} && DistinctUids(s)
    ensures First(s, x)
    decreases |s|
  {
    var a :| a in s;
    var rest := s - {a};
    if rest == {} {
      assert s == {a};
      return a;
    }
    var b := FirstExists(rest);
    WinsStrictTotalOrder(a, b, a);
    if Wins(b, a) { return b; }
    forall y | y in s && y != a ensures Wins(a, y) {
      if y != b { WinsStrictTotalOrder(a, b, y); }
    }
    return a;
  }

  /** The contender that is first wins against every contender; whether it is
      unblocked depends only on the sandbox that owns the generated name. */
  lemma UnblockedExactly(all: set<Sandbox>, claim: string, x: Sandbox)
    requires WellNamed(all) && Contender(all, claim, x)
    ensures Unblocked(all, x, claim) <==>
              First(Contenders(all, claim), x)
              && forall o :: o in all && OwnerOfGeneratedClaim(claim) == Some(o.name) && o != x && Contends(o) ==> Wins(x, o)
  {
    var cs := Contenders(all, claim);
    if Unblocked(all, x, claim) {
      forall y | y in cs && y != x ensures Wins(x, y) {
        assert !Blocks(all, x, claim, y);
        WinsStrictTotalOrder(x, y, x);
      }
      forall o | o in all && OwnerOfGeneratedClaim(claim) == Some(o.name) && o != x && Contends(o) ensures Wins(x, o) {
        assert !Blocks(all, x, claim, o);
        WinsStrictTotalOrder(x, o, x);
      }
    }
    if First(cs, x) && (forall o :: o in all && OwnerOfGeneratedClaim(claim) == Some(o.name) && o != x && Contends(o) ==> Wins(x, o)) {
      forall y ensures !Blocks(all, x, claim, y) {
        WinsStrictTotalOrder(x, y, x);
      }
    }
  }

  /** No existing sandbox has the name the claim was generated from. */
  ghost predicate Unowned(all: set<Sandbox>, claim: string) {
    forall o :: o in all ==> OwnerOfGeneratedClaim(claim) != Some(o.name)
  }

  /** Exactly one contender is unblocked, whatever the order of the list. */
  lemma ExactlyOneUnblocked(all: set<Sandbox>, claim: string) returns (x: Sandbox)
    requires WellNamed(all) && Unowned(all, claim) && Contenders(all, claim) != {}
    ensures Contender(all, claim, x) && Unblocked(all, x, claim)
    ensures forall y :: Contender(all, claim, y) && Unblocked(all, y, claim) ==> y == x
  {
    var cs := Contenders(all, claim);
    x := FirstExists(cs);
    UnblockedExactly(all, claim, x);
    forall y | Contender(all, claim, y) && Unblocked(all, y, claim) ensures y == x {
      UnblockedExactly(all, claim, y);
      FirstUnique(cs, x, y);
    }
  }

  /** Sandboxes created strictly later never change who is unblocked. */
  lemma LaterContendersChangeNothing(all: set<Sandbox>, later: set<Sandbox>, claim: string, x: Sandbox)
    requires WellNamed(all + later) && Unowned(all + later, claim)
    requires Contender(all, claim, x)
    requires forall y, z :: y in all && z in later ==> y.created < z.created
    ensures Unblocked(all, x, claim) <==> Unblocked(all + later, x, claim)
  {
    if Unblocked(all, x, claim) {
      forall y ensures !Blocks(all + later, x, claim, y) { assert !Blocks(all, x, claim, y); }
    }
    if Unblocked(all + later, x, claim) {
      forall y ensures !Blocks(all, x, claim, y) { assert !Blocks(all + later, x, claim, y); }
    }
  }

  // ----------------------------------------------------- generated claims

  /** Who is cleared to use the claim, by the verdict of the moment: its unblocked
      contenders, and the owner of the generated name when it has no existing claim of
      its own (that one is never checked). */
  ghost predicate Cleared(all: set<Sandbox>, claim: string, x: Sandbox) {
    || (Contender(all, claim, x) && Unblocked(all, x, claim))
    || (x in all && Contends(x) && x.existingClaim == "" && GeneratedClaim(x.name) == claim)
  }

  /** If some contender precedes the owner of the name, the first one does and is
      not blocked. */
  lemma FirstBeats(all: set<Sandbox>, claim: string, o: Sandbox, y: Sandbox) returns (x: Sandbox)
    requires WellNamed(all) && o in all && OwnerOfGeneratedClaim(claim) == Some(o.name)
    requires Contender(all, claim, y) && y != o && !Wins(o, y) && o.existingClaim != claim
    ensures Contender(all, claim, x) && Unblocked(all, x, claim)
  {
    var cs := Contenders(all, claim);
    assert y in cs;
    x := FirstExists(cs);
    WinsStrictTotalOrder(o, y, o);
    WinsStrictTotalOrder(x, y, o);
    UnblockedExactly(all, claim, x);
  }

  /** The owner of the name blocks others even while it uses another volume: then
      nobody at all is cleared exactly when that owner precedes them all. */
  lemma NobodyClearedExactly(all: set<Sandbox>, claim: string, o: Sandbox)
    requires WellNamed(all) && o in all && Contends(o) && OwnerOfGeneratedClaim(claim) == Some(o.name)
    requires o.existingClaim != "" && o.existingClaim != claim
    ensures (forall x :: !Cleared(all, claim, x)) <==> (forall y :: Contender(all, claim, y) ==> Wins(o, y))
  {
    if forall y :: Contender(all, claim, y) ==> Wins(o, y) {
      forall x ensures !Cleared(all, claim, x) {
        if Contender(all, claim, x) {
          UnblockedExactly(all, claim, x);
          WinsStrictTotalOrder(o, x, o);
        } else if x in all && GeneratedClaim(x.name) == claim {
          assert GeneratedClaim(x.name)[|PREFIX|..] == x.name;
        }
      }
    } else {
      var y :| Contender(all, claim, y) && !Wins(o, y);
      var x := FirstBeats(all, claim, o, y);
      assert Cleared(all, claim, x);
    }
  }

  /** For a claim generated for a live sandbox `o`, `o` is the only one cleared
      exactly when `o` precedes every other contender in the tie-break. */
  lemma OwnerAloneClearedExactly(all: set<Sandbox>, o: Sandbox)
    requires WellNamed(all) && o in all && Contends(o) && o.existingClaim == ""
    ensures (forall x :: Cleared(all, GeneratedClaim(o.name), x) ==> x == o)
            <==> (forall y :: Contender(all, GeneratedClaim(o.name), y) ==> Wins(o, y))
  {
    var claim := GeneratedClaim(o.name);
    assert claim[|PREFIX|..] == o.name && claim[..|PREFIX|] == PREFIX;
    assert OwnerOfGeneratedClaim(claim) == Some(o.name);
    var cs := Contenders(all, claim);
    if forall y :: Contender(all, claim, y) ==> Wins(o, y) {
      forall x | Cleared(all, claim, x) ensures x == o {
        if Contender(all, claim, x) {
          UnblockedExactly(all, claim, x);
          WinsStrictTotalOrder(o, x, o);
        } else {
          assert GeneratedClaim(x.name)[|PREFIX|..] == x.name;
        }
      }
    } else {
      var y :| Contender(all, claim, y) && !Wins(o, y);
      var x := FirstBeats(all, claim, o, y);
      assert Cleared(all, claim, x);
    }
  }
}
