/** The agent's persistent shell: one PTY shared by all interactive clients,
    restarted after the shell exits. Client attaches, the process and its reaper
    goroutine run concurrently; the mutex makes each locked section one step. */
module Shell {
  import opened Base

  /** A shell process and its PTY. `waited` is what the code sees as a non-nil
      ProcessState; `reaped` means its reaper goroutine has finished. */
  datatype Proc = Proc(exited: bool, waited: bool, reaped: bool, ptyClosed: bool)

  const FRESH := Proc(false, false, false, false)

  /** Shells are numbered in the order they were started; a PTY has the number of
      its shell. */
  datatype Sup = Sup(ptmx: Option<nat>, cmd: Option<nat>, shells: seq<Proc>, attached: int, clients: nat)

  const INIT := Sup(None, None, [], 0, 0)

  datatype Event =
    | Ensure(starts: bool)   // ensureShell; `starts` tells whether a start would work
    | Exit(c: nat)           // the process ends
    | WaitDone(c: nat)       // cmd.Wait returns in the reaper goroutine
    | Reap(c: nat)           // the reaper's locked section
    | Enter | Leave          // attachShell's counter
    | Collect(c: nat)        // the Go runtime closes a PTY that nothing refers to

  predicate Alive(s: Sup) {
    s.ptmx.Some? && s.cmd.Some? && s.cmd.value < |s.shells| && !s.shells[s.cmd.value].waited
  }

  /** The PTY of `c` is open and the agent's field does not name it any more. */
  predicate Leaked(s: Sup, c: nat) {
    c < |s.shells| && s.ptmx != Some(c) && !s.shells[c].ptyClosed
  }

  predicate Enabled(s: Sup, e: Event) {
    match e
    case Ensure(_) => true
    case Exit(c) => c < |s.shells| && !s.shells[c].exited
    case WaitDone(c) => c < |s.shells| && s.shells[c].exited && !s.shells[c].waited
    case Reap(c) => c < |s.shells| && s.shells[c].waited && !s.shells[c].reaped
    case Enter => true
    case Leave => s.clients > 0
    case Collect(c) => Leaked(s, c) && s.shells[c].reaped
  }

  function Apply(s: Sup, e: Event): Sup
    requires Enabled(s, e)
  {
    match e
    case Ensure(starts) =>
      if Alive(s) || !starts then s
      else s.(ptmx := Some(|s.shells|), cmd := Some(|s.shells|), shells := s.shells + [FRESH])
    case Exit(c) => s.(shells := s.shells[c := s.shells[c].(exited := true)])
    case WaitDone(c) => s.(shells := s.shells[c := s.shells[c].(waited := true)])
    case Reap(c) =>
      var s1 := s.(shells := s.shells[c := s.shells[c].(reaped := true)]);
      if s.cmd != Some(c) then s1
      else
        var s2 := if s.ptmx.Some? && s.ptmx.value < |s.shells|
                  then s1.(shells := s1.shells[s.ptmx.value := s1.shells[s.ptmx.value].(ptyClosed := true)])
                  else s1;
        s2.(ptmx := None, cmd := None)
    case Enter => s.(attached := s.attached + 1, clients := s.clients + 1)
    case Leave => s.(attached := s.attached - 1, clients := s.clients - 1)
    case Collect(c) => s.(shells := s.shells[c := s.shells[c].(ptyClosed := true)])
  }

  ghost predicate Legal(s: Sup, es: seq<Event>)
    decreases |es|
  {
    es == [] || (Enabled(s, es[0]) && Legal(Apply(s, es[0]), es[1..]))
  }

  ghost function Exec(s: Sup, es: seq<Event>): Sup
    requires Legal(s, es)
    decreases |es|
  {
    if es == [] then s else Exec(Apply(s, es[0]), es[1..])
  }

  /** Both fields nil or both naming the same shell; any shell not yet waited for
      is that one; its PTY is open; the counter counts the attached clients. */
  ghost predicate Inv(s: Sup) {
    && s.ptmx == s.cmd
    && (s.cmd.Some? ==> s.cmd.value < |s.shells| && !s.shells[s.cmd.value].ptyClosed && !s.shells[s.cmd.value].reaped)
    && (forall c :: 0 <= c < |s.shells| && !s.shells[c].waited ==> s.cmd == Some(c))
    && (forall c :: 0 <= c < |s.shells| ==>
          (s.shells[c].reaped ==> s.shells[c].waited) && (s.shells[c].ptyClosed ==> s.shells[c].reaped))
    && s.attached == s.clients
  }

  lemma InvStep(s: Sup, e: Event)
    requires Inv(s) && Enabled(s, e)
    ensures Inv(Apply(s, e))
  {
  }

  ghost predicate AtMostOneUnwaited(s: Sup) {
    forall a, b :: 0 <= a < |s.shells| && 0 <= b < |s.shells| && !s.shells[a].waited && !s.shells[b].waited ==> a == b
  }

  /** In every interleaving at most one started shell has not been waited for. */
  lemma {:induction false} OneShell(s: Sup, es: seq<Event>)
    requires Inv(s) && Legal(s, es)
    ensures Inv(Exec(s, es)) && AtMostOneUnwaited(Exec(s, es))
    decreases |es|
  {
    if es != [] {
      InvStep(s, es[0]);
      OneShell(Apply(s, es[0]), es[1..]);
    }
  }

  /** A late reap of an older shell never touches the current shell or its PTY;
      reaping the current one clears both fields and closes its PTY. */
  lemma LateReapHarmless(s: Sup, c: nat)
    requires Inv(s) && Enabled(s, Reap(c))
    ensures var s' := Apply(s, Reap(c));
            && (s.cmd != Some(c) ==>
                  && s'.ptmx == s.ptmx && s'.cmd == s.cmd
                  && forall d :: 0 <= d < |s.shells| && d != c ==> s'.shells[d] == s.shells[d])
            && (s.cmd == Some(c) ==> s'.ptmx == None && s'.cmd == None && s'.shells[c].ptyClosed)
  {
  }

  // ------------------------------------------------------------ leaked PTYs

  /** A PTY leaks exactly when a client attaches between the shell's Wait and its
      reap: the new shell overwrites the fields and the late reap finds they are
      not its own. */
  lemma LeaksExactly(s: Sup, e: Event, c: nat)
    requires Inv(s) && Enabled(s, e) && c < |s.shells|
    ensures Leaked(Apply(s, e), c) <==>
              (Leaked(s, c) && e != Collect(c)) || (e == Ensure(true) && s.cmd == Some(c) && s.shells[c].waited)
  {
  }

  /** No step of the agent ever closes a leaked PTY: it stays open exactly as long as
      the Go runtime does not collect the file. */
  lemma {:induction false} LeakLastsUntilCollected(s: Sup, es: seq<Event>, c: nat)
    requires Inv(s) && Legal(s, es) && Leaked(s, c)
    ensures Leaked(Exec(s, es), c) <==> Collect(c) !in es
    decreases |es|
  {
    if es != [] {
      assert es == [es[0]] + es[1..];
      LeaksExactly(s, es[0], c);
      InvStep(s, es[0]);
      if es[0] == Collect(c) {
        ClosedStaysClosed(Apply(s, es[0]), es[1..], c);
      } else {
        LeakLastsUntilCollected(Apply(s, es[0]), es[1..], c);
      }
    }
  }

  lemma {:induction false} ClosedStaysClosed(s: Sup, es: seq<Event>, c: nat)
    requires Legal(s, es) && c < |s.shells| && s.shells[c].ptyClosed
    ensures c < |Exec(s, es).shells| && Exec(s, es).shells[c].ptyClosed
    decreases |es|
  {
    if es != [] { ClosedStaysClosed(Apply(s, es[0]), es[1..], c); }
  }

  /** The race is reachable. */
  lemma LeakHappens()
    ensures var es := [Ensure(true), Exit(0), WaitDone(0), Ensure(true), Reap(0)];
            Legal(INIT, es) && Leaked(Exec(INIT, es), 0)
  {
    var e0, e1, e2, e3, e4 := Ensure(true), Exit(0), WaitDone(0), Ensure(true), Reap(0);
    var s1 := Apply(INIT, e0);
    var s2 := Apply(s1, e1);
    var s3 := Apply(s2, e2);
    var s4 := Apply(s3, e3);
    var s5 := Apply(s4, e4);
    var es := [e0, e1, e2, e3, e4];
    assert es[1..] == [e1, e2, e3, e4] && es[1..][1..] == [e2, e3, e4];
    assert [e2, e3, e4][1..] == [e3, e4] && [e3, e4][1..] == [e4] && [e4][1..] == [];
    assert Legal(s5, []) && Exec(s5, []) == s5;
    assert Legal(s4, [e4]) && Exec(s4, [e4]) == s5;
    assert Legal(s3, [e3, e4]) && Exec(s3, [e3, e4]) == s5;
    assert Legal(s2, [e2, e3, e4]) && Exec(s2, [e2, e3, e4]) == s5;
    assert Legal(s1, [e1, e2, e3, e4]) && Exec(s1, [e1, e2, e3, e4]) == s5;
  }

  // ---------------------------------------------------------- implementation

  class SessionManager {
    var ptmx: Option<nat>
    var shellCmd: Option<nat>
    var attached: int
    var shells: seq<Proc>
    ghost var clients: nat

    ghost function View(): Sup
      reads this
    {
      Sup(ptmx, shellCmd, shells, attached, clients)
    }

    constructor ()
      ensures View() == INIT
    {
      ptmx, shellCmd, attached, shells, clients := None, None, 0, [], 0;
    }

    /** Start the shell under a PTY unless one is running; return the PTY. */
    method EnsureShell(starts: bool) returns (r: Option<nat>)
      requires Inv(View())
      modifies this`ptmx, this`shellCmd, this`shells
      ensures View() == Apply(old(View()), Ensure(starts)) && Inv(View())
      ensures r.Some? ==> r == ptmx && Alive(View())
      ensures old(ptmx).Some? && !old(shells)[old(ptmx).value].waited ==> r == old(ptmx) && View() == old(View())
      ensures r.None? ==> !starts && View() == old(View())
    {
      if ptmx.Some? && shellCmd.Some? && !shells[shellCmd.value].waited {
        return ptmx;
      }
      if !starts { return None; }
      var cmd := |shells|;
      shells := shells + [FRESH];
      ptmx := Some(cmd);
      shellCmd := Some(cmd);
      return ptmx;
    }

    /** The locked section of the reaper goroutine of shell `c`. */
    method ReapShell(c: nat)
      requires Inv(View()) && Enabled(View(), Reap(c))
      modifies this`ptmx, this`shellCmd, this`shells
      ensures View() == Apply(old(View()), Reap(c)) && Inv(View())
    {
      shells := shells[c := shells[c].(reaped := true)];
      if shellCmd == Some(c) {
        shells := shells[ptmx.value := shells[ptmx.value].(ptyClosed := true)];
        ptmx := None;
        shellCmd := None;
      }
    }

    method Attach()
      requires Inv(View())
      modifies this`attached, this`clients
      ensures View() == Apply(old(View()), Enter) && Inv(View()) && attached == old(attached) + 1
    {
      attached := attached + 1;
      clients := clients + 1;
    }

    method Detach()
      requires Inv(View()) && clients > 0
      modifies this`attached, this`clients
      ensures View() == Apply(old(View()), Leave) && Inv(View()) && attached == old(attached) - 1
    {
      attached := attached - 1;
      clients := clients - 1;
    }
  }
}
