/** Host-based HTTP routing: `<port>--<sandbox>--<namespace>.<baseDomain>`. */
module HttpRoute {

  // ---------------------------------------------------------- string library

  function LowerChar(c: char): char {
    if 'A' <= c <= 'Z' then ((c as int) + 32) as char else c
  }

  /** strings.ToLower, on ASCII letters. */
  function ToLower(s: string): (r: string)
    ensures |r| == |s| && forall i :: 0 <= i < |s| ==> r[i] == LowerChar(s[i])
  {
    if s == "" then "" else [LowerChar(s[0])] + ToLower(s[1..])
  }

  predicate IsSpace(c: char) {
    c == ' ' || c == '\t' || c == '\n' || c == '\r' || c == '\U{000B}' || c == '\U{000C}'
  }

  function TrimLeft(s: string): string {
    if s != "" && IsSpace(s[0]) then TrimLeft(s[1..]) else s
  }

  function TrimRight(s: string): string {
    if s != "" && IsSpace(s[|s| - 1]) then TrimRight(s[..|s| - 1]) else s
  }

  /** strings.TrimSpace, on ASCII white space. */
  function TrimSpace(s: string): string {
    TrimRight(TrimLeft(s))
  }

  predicate At(s: string, sep: string, i: int) {
    0 <= i <= |s| - |sep| && s[i..i + |sep|] == sep
  }

  datatype CutResult = Found(before: string, after: string) | Absent

  /** strings.Cut: around the first occurrence of `sep` at or after `i`. */
  function CutFrom(s: string, sep: string, i: nat): CutResult
    decreases |s| - i
  {
    if i + |sep| > |s| then Absent
    else if s[i..i + |sep|] == sep then Found(s[..i], s[i + |sep|..])
    else CutFrom(s, sep, i + 1)
  }

  function Cut(s: string, sep: string): CutResult {
    CutFrom(s, sep, 0)
  }

  predicate HasSuffix(s: string, suffix: string) {
    |suffix| <= |s| && s[|s| - |suffix|..] == suffix
  }

  // -------------------------------------------------------------- the parser

  datatype Target = Target(port: string, sandbox: string, namespace: string)

  datatype RouteError = WrongDomain | TooLong | NoSeparator | NoNamespace | EmptyPart | Ambiguous

  datatype Result = Ok(target: Target) | Err(error: RouteError)

  datatype Scope = Under(text: string) | Outside

  const MAX_LABEL_LEN := 63

  function Before(s: string, sep: string): string {
    match Cut(s, sep) case Found(h, _) => h case Absent => s
  }

  /** The host as routed: trimmed, lower-cased, any port dropped. */
  function Normalise(host: string): string {
    Before(ToLower(TrimSpace(host)), ":")
  }

  function Suffix(baseDomain: string): string {
    "." + if baseDomain != "" && baseDomain[0] == '.' then baseDomain[1..] else baseDomain
  }

  /** The single label under the base domain, if the host is under it. */
  function LabelOf(host: string, baseDomain: string): Scope {
    if baseDomain != "" then
      if HasSuffix(host, Suffix(baseDomain)) then Under(host[..|host| - |Suffix(baseDomain)|]) else Outside
    else Under(Before(host, "."))
  }

  function Join(t: Target): string {
    t.port + "--" + t.sandbox + "--" + t.namespace
  }

  function ParseLabel(text: string): Result {
    if |text| > MAX_LABEL_LEN then Err(TooLong)
    else match Cut(text, "--")
      case Absent => Err(NoSeparator)
      case Found(port, rest) =>
        match Cut(rest, "--")
        case Absent => Err(NoNamespace)
        case Found(sandbox, namespace) =>
          if port == "" || sandbox == "" || namespace == "" then Err(EmptyPart)
          else if Join(Target(port, sandbox, namespace)) != text then Err(Ambiguous)
          else Ok(Target(port, sandbox, namespace))
  }

  function ParseHTTPHost(host: string, baseDomain: string): Result {
    match LabelOf(Normalise(host), baseDomain)
    case Outside => Err(WrongDomain)
    case Under(text) => ParseLabel(text)
  }

  // ----------------------------------------------------------------- cutting

  /** `s` holds `sep` nowhere before `n`. */
  ghost predicate NoneBefore(s: string, sep: string, n: int) {
    forall i :: 0 <= i < n ==> !At(s, sep, i)
  }

  lemma {:induction false} CutFromFirst(s: string, sep: string, i: nat)
    requires NoneBefore(s, sep, i)
    ensures CutFrom(s, sep, i).Absent? ==> forall j :: !At(s, sep, j)
    ensures CutFrom(s, sep, i).Found? ==>
              var c := CutFrom(s, sep, i);
              s == c.before + sep + c.after && NoneBefore(s, sep, |c.before|)
    decreases |s| - i
  {
    if i + |sep| <= |s| && s[i..i + |sep|] != sep {
      assert !At(s, sep, i);
      CutFromFirst(s, sep, i + 1);
    } else if i + |sep| <= |s| {
      assert s == s[..i] + s[i..i + |sep|] + s[i + |sep|..];
    }
  }

  /** Cut finds the first occurrence, and nothing else satisfies that. */
  lemma CutUnique(s: string, sep: string, before: string, after: string)
    ensures Cut(s, sep) == Found(before, after)
            <==> s == before + sep + after && NoneBefore(s, sep, |before|)
  {
    CutFromFirst(s, sep, 0);
    if s == before + sep + after && NoneBefore(s, sep, |before|) {
      assert At(s, sep, |before|);
      var c := Cut(s, sep);
      assert At(s, sep, |c.before|) by { assert s == c.before + sep + c.after; }
      assert |c.before| == |before|;
      assert c.before == s[..|before|] == before;
      assert c.after == s[|before| + |sep|..] == after;
    }
  }

  lemma CutAbsent(s: string, sep: string)
    ensures Cut(s, sep).Absent? <==> forall i :: !At(s, sep, i)
  {
    CutFromFirst(s, sep, 0);
    if Cut(s, sep).Found? {
      var c := Cut(s, sep);
      assert s == c.before + sep + c.after;
      assert At(s, sep, |c.before|);
    }
  }

  /** A component that can precede a separator: no `--` inside, no hyphen last. */
  predicate Clean(p: string) {
    && (forall i :: 0 <= i < |p| - 1 ==> !(p[i] == '-' && p[i + 1] == '-'))
    && (p != "" ==> p[|p| - 1] != '-')
  }

  lemma HyphenPair(p: string, rest: string, i: int)
    requires 0 <= i < |p|
    ensures At(p + "--" + rest, "--", i) <==> p[i] == '-' && (i == |p| - 1 || p[i + 1] == '-')
  {
    var s := p + "--" + rest;
    assert s[i..i + 2] == [s[i], s[i + 1]];
  }

  lemma CleanIsFirst(p: string, rest: string)
    ensures Clean(p) <==> NoneBefore(p + "--" + rest, "--", |p|)
  {
    var s := p + "--" + rest;
    if Clean(p) {
      forall i | 0 <= i < |p| ensures !At(s, "--", i) {
        HyphenPair(p, rest, i);
      }
    }
    if NoneBefore(s, "--", |p|) {
      forall i | 0 <= i < |p| - 1 ensures !(p[i] == '-' && p[i + 1] == '-') { HyphenPair(p, rest, i); }
      if p != "" { HyphenPair(p, rest, |p| - 1); }
    }
  }

  // ---------------------------------------------------------------- theorems

  /** A target some label stands for. */
  predicate Routable(t: Target) {
    && Clean(t.port) && Clean(t.sandbox)
    && t.port != "" && t.sandbox != "" && t.namespace != ""
  }

  /** The parser, characterised without its code: a label is accepted as `t` exactly when
      it spells port, sandbox and namespace in this order and fits a DNS label. */
  lemma ParseLabelExact(text: string, t: Target)
    ensures ParseLabel(text) == Ok(t)
            <==> text == t.port + "--" + t.sandbox + "--" + t.namespace && |text| <= 63 && Routable(t)
  {
    var tail := t.sandbox + "--" + t.namespace;
    assert Join(t) == t.port + "--" + tail;
    CutUnique(text, "--", t.port, tail);
    CutUnique(tail, "--", t.sandbox, t.namespace);
    CleanIsFirst(t.port, tail);
    CleanIsFirst(t.sandbox, t.namespace);
    if ParseLabel(text) == Ok(t) {
      var rest := Cut(text, "--").after;
      CutUnique(text, "--", t.port, rest);
      CutUnique(rest, "--", t.sandbox, t.namespace);
      assert rest == tail;
    }
  }

  lemma LabelNeverAmbiguous(text: string)
    ensures ParseLabel(text) != Err(Ambiguous)
  {
    var c := Cut(text, "--");
    if c.Found? {
      CutUnique(text, "--", c.before, c.after);
      var d := Cut(c.after, "--");
      if d.Found? {
        CutUnique(c.after, "--", d.before, d.after);
        assert Join(Target(c.before, d.before, d.after)) == c.before + "--" + c.after;
      }
    }
  }

  /** Reconstruction always succeeds: the "ambiguous" branch is unreachable. */
  lemma NeverAmbiguous(host: string, baseDomain: string)
    ensures ParseHTTPHost(host, baseDomain) != Err(Ambiguous)
  {
    var l := LabelOf(Normalise(host), baseDomain);
    if l.Under? { LabelNeverAmbiguous(l.text); }
  }

  /** Two different targets never share a label. */
  lemma JoinInjective(a: Target, b: Target)
    requires Routable(a) && Routable(b) && Join(a) == Join(b)
    ensures a == b
  {
    var ta, tb := a.sandbox + "--" + a.namespace, b.sandbox + "--" + b.namespace;
    assert Join(a) == a.port + "--" + ta && Join(b) == b.port + "--" + tb;
    CutUnique(Join(a), "--", a.port, ta);
    CutUnique(Join(a), "--", b.port, tb);
    CleanIsFirst(a.port, ta);
    CleanIsFirst(b.port, tb);
    CutUnique(ta, "--", a.sandbox, a.namespace);
    CutUnique(ta, "--", b.sandbox, b.namespace);
    CleanIsFirst(a.sandbox, a.namespace);
    CleanIsFirst(b.sandbox, b.namespace);
  }

  /** The printed host. */
  function Print(t: Target, baseDomain: string): string {
    Join(t) + if baseDomain == "" then "" else Suffix(baseDomain)
  }

  /** Lower-case text without colons, as in host names. */
  predicate HostText(s: string) {
    forall i :: 0 <= i < |s| ==> s[i] != ':' && !('A' <= s[i] <= 'Z')
  }

  lemma BeforeFirst(s: string, c: char, rest: string)
    requires c !in s
    ensures Before(s, [c]) == s && Before(s + [c] + rest, [c]) == s
  {
    var full := s + [c] + rest;
    forall i | 0 <= i < |s| ensures !At(full, [c], i) && !At(s, [c], i) {
      assert full[i..i + 1] == [s[i]] && s[i..i + 1] == [s[i]];
    }
    CutUnique(full, [c], s, rest);
    CutAbsent(s, [c]);
  }

  /** Printing in any letter case, with or without a port, normalises back. */
  lemma NormalisePrinted(host: string, printed: string, port: string)
    requires HostText(printed)
    requires var asked := ToLower(TrimSpace(host)); asked == printed || asked == printed + ":" + port
    ensures Normalise(host) == printed
  {
    assert ':' !in printed;
    BeforeFirst(printed, ':', port);
  }

  lemma LabelOfPrinted(t: Target, baseDomain: string)
    requires baseDomain == "" ==> '.' !in Join(t)
    ensures LabelOf(Print(t, baseDomain), baseDomain) == Under(Join(t))
  {
    var host := Print(t, baseDomain);
    if baseDomain == "" {
      assert host == Join(t);
      FirstLabelOnly(Join(t), "");
    } else {
      var n := |host| - |Suffix(baseDomain)|;
      assert host[n..] == Suffix(baseDomain) && host[..n] == Join(t);
    }
  }

  /** Without a base domain everything from the first dot on is ignored. */
  lemma FirstLabelOnly(text: string, rest: string)
    requires '.' !in text
    ensures LabelOf(text + "." + rest, "") == Under(text) && LabelOf(text, "") == Under(text)
  {
    BeforeFirst(text, '.', rest);
  }

  /** Parsing inverts printing: the printed host, in any letter case and with any
      ":port" suffix, gives the target back exactly when the text fits. */
  lemma ParseInvertsPrint(t: Target, baseDomain: string, host: string, port: string)
    requires Routable(t) && (baseDomain == "" ==> '.' !in Join(t))
    requires HostText(Print(t, baseDomain))
    requires var asked := ToLower(TrimSpace(host));
             asked == Print(t, baseDomain) || asked == Print(t, baseDomain) + ":" + port
    ensures ParseHTTPHost(host, baseDomain) == Ok(t) <==> |Join(t)| <= MAX_LABEL_LEN
    ensures |Join(t)| > MAX_LABEL_LEN ==> ParseHTTPHost(host, baseDomain) == Err(TooLong)
  {
    NormalisePrinted(host, Print(t, baseDomain), port);
    LabelOfPrinted(t, baseDomain);
    ParseLabelExact(Join(t), t);
  }

  /** Every accepted host reprints to the label that was asked for, so a request
      can only reach the one target its text spells. */
  lemma AcceptedReprints(host: string, baseDomain: string)
    requires ParseHTTPHost(host, baseDomain).Ok?
    ensures var t := ParseHTTPHost(host, baseDomain).target;
            && Routable(t) && |Join(t)| <= MAX_LABEL_LEN
            && LabelOf(Normalise(host), baseDomain) == Under(Join(t))
            && (baseDomain != "" ==> Normalise(host) == Print(t, baseDomain))
            && (baseDomain != "" && baseDomain[0] != '.' ==>
                  Normalise(host) == t.port + "--" + t.sandbox + "--" + t.namespace + "." + baseDomain)
  {
    var h := Normalise(host);
    var l := LabelOf(h, baseDomain);
    var t := ParseHTTPHost(host, baseDomain).target;
    ParseLabelExact(l.text, t);
    if baseDomain != "" {
      assert h == h[..|h| - |Suffix(baseDomain)|] + Suffix(baseDomain);
    }
  }

  /** The routed host is lower-case text without colons. */
  lemma NormalisedIsHostText(host: string)
    ensures HostText(Normalise(host))
  {
    var low := ToLower(TrimSpace(host));
    var h := Normalise(host);
    CutAbsent(low, ":");
    var c := Cut(low, ":");
    if c.Found? { CutUnique(low, ":", c.before, c.after); }
    forall i | 0 <= i < |h| ensures h[i] != ':' && !('A' <= h[i] <= 'Z') {
      assert h[i] == low[i] == LowerChar(TrimSpace(host)[i]);
      assert !At(low, ":", i);
      assert low[i..i + 1] == [low[i]];
    }
  }

  lemma SuffixHostText(baseDomain: string)
    ensures HostText(Suffix(baseDomain)) <==> HostText(baseDomain)
  {
    var rest := if baseDomain != "" && baseDomain[0] == '.' then baseDomain[1..] else baseDomain;
    assert Suffix(baseDomain) == "." + rest;
    if HostText(Suffix(baseDomain)) {
      forall i | 0 <= i < |rest| ensures rest[i] == Suffix(baseDomain)[i + 1] {}
      assert HostText(rest);
      assert baseDomain == rest || baseDomain == "." + rest;
    }
  }

  lemma HostTextSuffix(h: string, suffix: string)
    requires HostText(h) && HasSuffix(h, suffix)
    ensures HostText(suffix)
  {
    forall i | 0 <= i < |suffix| ensures suffix[i] == h[|h| - |suffix| + i] {}
  }

  /** The base domain is compared as configured: one with an upper-case letter or a
      colon rejects every host. */
  lemma UnusableBaseRejectsAll(host: string, baseDomain: string)
    requires !HostText(baseDomain)
    ensures ParseHTTPHost(host, baseDomain) == Err(WrongDomain)
  {
    var h, suffix := Normalise(host), Suffix(baseDomain);
    NormalisedIsHostText(host);
    SuffixHostText(baseDomain);
    if HasSuffix(h, suffix) { HostTextSuffix(h, suffix); }
  }

  const BLANKS := " \t\n\r\U{000B}\U{000C}"

  lemma {:induction false} TrimLeftPad(pad: string, rest: string)
    requires (forall c :: c in pad ==> c in BLANKS) && rest != "" && rest[0] !in BLANKS
    ensures TrimLeft(pad + rest) == rest
    decreases |pad|
  {
    if pad == "" {
      assert pad + rest == rest;
    } else {
      assert pad[0] in pad && (pad + rest)[1..] == pad[1..] + rest;
      TrimLeftPad(pad[1..], rest);
    }
  }

  lemma {:induction false} TrimRightPad(rest: string, pad: string)
    requires (forall c :: c in pad ==> c in BLANKS) && rest != "" && rest[|rest| - 1] !in BLANKS
    ensures TrimRight(rest + pad) == rest
    decreases |pad|
  {
    var n := |pad| - 1;
    if pad == "" {
      assert rest + pad == rest;
    } else {
      assert pad[n] in pad && (rest + pad)[..|rest| + n] == rest + pad[..n];
      TrimRightPad(rest, pad[..n]);
    }
  }

  /** White space around the host does not matter. */
  lemma PaddingIgnored(before: string, body: string, after: string, baseDomain: string)
    requires forall c :: c in before || c in after ==> c in BLANKS
    requires body != "" && body[0] !in BLANKS && body[|body| - 1] !in BLANKS
    ensures ParseHTTPHost(before + body + after, baseDomain) == ParseHTTPHost(body, baseDomain)
  {
    assert before + body + after == before + (body + after);
    TrimLeftPad(before, body + after);
    TrimRightPad(body, after);
    TrimKeeps(body);
  }

  /** The same text but for the case of letters. */
  predicate Alike(a: string, b: string) {
    |a| == |b| && forall i :: 0 <= i < |a| ==> LowerChar(a[i]) == LowerChar(b[i])
  }

  lemma {:induction false} LeftAlike(a: string, b: string)
    requires Alike(a, b)
    ensures Alike(TrimLeft(a), TrimLeft(b))
    decreases |a|
  {
    if a != "" && IsSpace(a[0]) {
      assert LowerChar(a[0]) == LowerChar(b[0]);
      LeftAlike(a[1..], b[1..]);
    } else if a != "" {
      assert LowerChar(a[0]) == LowerChar(b[0]);
    }
  }

  lemma {:induction false} RightAlike(a: string, b: string)
    requires Alike(a, b)
    ensures Alike(TrimRight(a), TrimRight(b))
    decreases |a|
  {
    if a != "" {
      var n := |a| - 1;
      assert LowerChar(a[n]) == LowerChar(b[n]);
      if IsSpace(a[n]) { RightAlike(a[..n], b[..n]); }
    }
  }

  lemma NormaliseAlike(a: string, b: string)
    requires Alike(a, b)
    ensures Normalise(a) == Normalise(b)
  {
    LeftAlike(a, b);
    RightAlike(TrimLeft(a), TrimLeft(b));
    LowerAlike(TrimSpace(a), TrimSpace(b));
  }

  lemma LowerAlike(a: string, b: string)
    requires Alike(a, b)
    ensures ToLower(a) == ToLower(b)
  {
    var x, y := ToLower(a), ToLower(b);
    assert forall i :: 0 <= i < |a| ==> x[i] == y[i];
  }

  /** Neither does the case of its letters or a leading dot of the base domain. */
  lemma CaseAndDotIgnored(host: string, other: string, baseDomain: string)
    requires |host| == |other| && baseDomain != "" && baseDomain[0] != '.'
    requires forall i :: 0 <= i < |host| ==>
               host[i] == other[i] || ('A' <= host[i] <= 'Z' && other[i] as int == host[i] as int + ('a' as int - 'A' as int))
    ensures ParseHTTPHost(host, "." + baseDomain) == ParseHTTPHost(other, baseDomain)
  {
    assert Alike(host, other);
    NormaliseAlike(host, other);
    assert Suffix("." + baseDomain) == Suffix(baseDomain);
  }

  lemma TrimKeeps(s: string)
    requires s != "" && !IsSpace(s[0]) && !IsSpace(s[|s| - 1])
    ensures TrimSpace(s) == s
  {
  }

  lemma LowerKeeps(s: string)
    requires forall i :: 0 <= i < |s| ==> !('A' <= s[i] <= 'Z')
    ensures ToLower(s) == s
  {
  }

  /** A base domain accepts some host exactly when it is lower-case text without
      colons. */
  lemma UsableBaseExactly(baseDomain: string)
    ensures (exists host :: ParseHTTPHost(host, baseDomain).Ok?) <==> HostText(baseDomain)
  {
    if HostText(baseDomain) {
      var t := Target("p", "s", "n");
      var printed := Print(t, baseDomain);
      var host := printed + ":" + "80";
      assert Join(t) == "p--s--n";
      SuffixHostText(baseDomain);
      assert HostText(printed);
      TrimKeeps(host);
      LowerKeeps(host);
      ParseInvertsPrint(t, baseDomain, host, "80");
      assert ParseHTTPHost(host, baseDomain).Ok?;
    } else {
      forall host ensures !ParseHTTPHost(host, baseDomain).Ok? {
        UnusableBaseRejectsAll(host, baseDomain);
      }
    }
  }
}
