/** Planning an import of ssh_config forwards (internal/importer/plan.go).

    Resolving a host against the ssh config, expanding listen addresses and splitting `host:port`
    are what `Env` answers. */
module ImportPlan {

  import opened Text
  import opened Wrappers

  datatype Candidate = Candidate(typ: string, local: string, remote: string, sshHost: string)

  datatype Tuber = Tuber(name: string, typ: string, local: string, remote: string, ssh: string, host: string, port: int)

  datatype Planned = Planned(tuber: Tuber, candidate: Candidate)

  datatype Plan = Plan(add: seq<Planned>, skipped: seq<Candidate>)

  datatype Env = Env(
    resolve: string -> (string, int),
    listen: string -> string,
    remoteListen: string -> string,
    splitHostPort: string -> Option<(string, string)>)

  // ----- Names -----

  predicate NameChar(c: char) { c == '-' || c == '_' || 'a' <= c <= 'z' || 'A' <= c <= 'Z' || '0' <= c <= '9' }

  predicate ValidName(s: string) { s != "" && forall c | c in s :: NameChar(c) }

  predicate Kept(c: char) { c == '-' || c == '_' || 'a' <= c <= 'z' || '0' <= c <= '9' }

  /** The name so far and whether a dash is owed. */
  function Sanitizing(s: string): (r: (string, bool))
    ensures forall c | c in r.0 :: Kept(c)
  {
    if s == "" then ("", false)
    else
      var (b, dash) := Sanitizing(s[..|s| - 1]);
      var c := s[|s| - 1];
      if !Kept(c) then (b, true) else if dash && b != "" then (b + "-" + [c], false) else (b + [c], false)
  }

  method SanitizeName(text: string) returns (r: string)
    ensures r == Sanitizing(ToLower(text)).0
  {
    var s := ToLower(text);
    var dash := false;
    r := "";
    var i := 0;
    while i < |s|
      invariant 0 <= i <= |s|
      invariant (r, dash) == Sanitizing(s[..i])
    {
      assert s[..i + 1][..i] == s[..i];
      if !Kept(s[i]) {
        dash := true;
      } else {
        if dash && r != "" {
          r := r + "-";
        }
        dash := false;
        r := r + [s[i]];
      }
      i := i + 1;
    }
    assert s[..|s|] == s;
  }

  predicate ValidPort(s: string) { var n := Atoi(s); n.Some? && 1 <= n.value <= 65535 }

  /** The port a directive listens on, or "" when it names none. */
  function DeclaredPort(env: Env, c: Candidate): (r: string)
    ensures r != "" ==> ValidPort(r)
  {
    var s := if c.typ == "remote" then c.remote else c.local;
    match env.splitHostPort(s)
    case Some((_, p)) => if ValidPort(p) then p else ""
    case None => if ValidPort(s) then s else ""
  }

  function BaseName(env: Env, c: Candidate): string {
    var host := Sanitizing(ToLower(c.sshHost)).0;
    var port := DeclaredPort(env, c);
    var base := if port != "" then host + "-" + port else host;
    if base == "" then "imported" else base
  }

  /** A port number that Atoi accepts is written in digits, but for one leading plus sign. */
  lemma PortText(p: string)
    requires ValidPort(p)
    ensures forall c | c in p :: IsDigit(c) || c == '+'
  {
    if p[0] == '-' || p[0] == '+' {
      assert p == [p[0]] + p[1..];
    }
  }

  lemma BaseNameValid(env: Env, c: Candidate)
    ensures BaseName(env, c) != ""
    ensures ValidName(BaseName(env, c)) <==> '+' !in DeclaredPort(env, c)
  {
    var port := DeclaredPort(env, c);
    var base := BaseName(env, c);
    if port != "" {
      PortText(port);
      if '+' in port {
        assert '+' in base;
      }
    }
  }

  // ----- Suffixes -----

  function Suffixed(base: string, k: nat): string { if k < 2 then base else base + "-" + Itoa(k) }

  lemma SuffixesDiffer(base: string, j: nat, k: nat)
    requires 1 <= j < k
    ensures Suffixed(base, j) != Suffixed(base, k)
  {
    assert Suffixed(base, k)[|base|..] == "-" + Itoa(k);
    if j >= 2 && Suffixed(base, j) == Suffixed(base, k) {
      assert Suffixed(base, j)[|base|..] == "-" + Itoa(j);
      assert ("-" + Itoa(j))[1..] == Itoa(j) && ("-" + Itoa(k))[1..] == Itoa(k);
      DigitsValueOfDigits(j);
      DigitsValueOfDigits(k);
    }
  }

  function Tried(base: string, k: nat): set<string> {
    if k <= 1 then {} else Tried(base, k - 1) + {Suffixed(base, k - 1)}
  }

  lemma {:induction false} TriedIndex(base: string, k: nat, s: string) returns (j: nat)
    requires s in Tried(base, k)
    ensures 1 <= j < k && s == Suffixed(base, j)
  {
    if s == Suffixed(base, k - 1) {
      j := k - 1;
    } else {
      j := TriedIndex(base, k - 1, s);
    }
  }

  lemma {:induction false} TriedCount(base: string, k: nat)
    ensures |Tried(base, k)| == if k <= 1 then 0 else k - 1
  {
    if k > 1 {
      TriedCount(base, k - 1);
      if Suffixed(base, k - 1) in Tried(base, k - 1) {
        var j := TriedIndex(base, k - 1, Suffixed(base, k - 1));
        SuffixesDiffer(base, j, k - 1);
      }
    }
  }

  lemma {:induction false} SubsetSize(a: set<string>, b: set<string>)
    requires a <= b
    ensures |a| <= |b|
  {
    if a != {} {
      var x :| x in a;
      SubsetSize(a - {x}, b - {x});
    }
  }

  /** Pigeonhole: no more suffixes can clash than there are names taken. */
  lemma ClashesAreFew(base: string, taken: set<string>, k: nat)
    requires k >= 1 && forall j: nat | 1 <= j < k :: Suffixed(base, j) in taken
    ensures k - 1 <= |taken|
  {
    TriedCount(base, k);
    forall s | s in Tried(base, k) ensures s in taken {
      var j := TriedIndex(base, k, s);
    }
    SubsetSize(Tried(base, k), taken);
  }

  /** The first free suffix from k on. */
  function FirstFree(base: string, taken: set<string>, k: nat): (r: nat)
    requires k >= 1 && forall j: nat | 1 <= j < k :: Suffixed(base, j) in taken
    ensures r >= k && Suffixed(base, r) !in taken && forall j: nat | 1 <= j < r :: Suffixed(base, j) in taken
    decreases |taken| + 1 - k
  {
    if Suffixed(base, k) !in taken then k
    else
      assert k <= |taken| by { ClashesAreFew(base, taken, k + 1); }
      FirstFree(base, taken, k + 1)
  }

  function NameFor(env: Env, c: Candidate, taken: set<string>): (r: string)
    ensures r !in taken
  {
    Suffixed(BaseName(env, c), FirstFree(BaseName(env, c), taken, 1))
  }

  method TuberName(env: Env, c: Candidate, taken: set<string>) returns (name: string)
    ensures name == NameFor(env, c, taken)
  {
    var base := SanitizeName(c.sshHost);
    var port := DeclaredPort(env, c);
    if port != "" {
      base := base + "-" + port;
    }
    if base == "" {
      base := "imported";
    }
    name := base;
    var n := 2;
    while name in taken
      invariant n >= 2 && name == Suffixed(base, n - 1)
      invariant forall j: nat | 1 <= j < n - 1 :: Suffixed(base, j) in taken
      invariant FirstFree(base, taken, n - 1) == FirstFree(base, taken, 1)
      decreases |taken| + 2 - n
    {
      ClashesAreFew(base, taken, n);
      name := base + "-" + Itoa(n);
      n := n + 1;
    }
  }

  lemma NameValid(env: Env, c: Candidate, taken: set<string>)
    ensures ValidName(NameFor(env, c, taken)) <==> '+' !in DeclaredPort(env, c)
  {
    BaseNameValid(env, c);
    var base := BaseName(env, c);
    var k := FirstFree(base, taken, 1);
    var name := Suffixed(base, k);
    if k >= 2 {
      forall c | c in Itoa(k) ensures IsDigit(c) {
        assert AllDigits(Digits(k));
      }
      forall c | c in base ensures c in name {}
    }
  }

  // ----- The plan -----

  /** What identifies a forward: type, expanded listen addresses and resolved endpoint. */
  function CoverageKey(env: Env, typ: string, local: string, remote: string, host: string, port: int): string {
    typ + "|" + env.listen(local) + "|" + env.remoteListen(remote) + "|" + host + "|" + Itoa(port)
  }

  function TuberKey(env: Env, t: Tuber): string {
    var r := env.resolve(t.ssh);
    var e := if TrimSpace(t.ssh) != "" && r.0 != "" then r else (t.host, t.port);
    CoverageKey(env, t.typ, t.local, t.remote, e.0, e.1)
  }

  function CandidateKey(env: Env, c: Candidate): string {
    CoverageKey(env, c.typ, c.local, c.remote, env.resolve(c.sshHost).0, env.resolve(c.sshHost).1)
  }

  function Names(ts: seq<Tuber>): (r: set<string>)
    ensures forall t | t in ts :: t.name in r
  {
    set t | t in ts :: t.name
  }

  function Keys(env: Env, ts: seq<Tuber>): set<string> { set t | t in ts :: TuberKey(env, t) }

  function CandidateKeys(env: Env, cs: seq<Candidate>): set<string> { set c | c in cs :: CandidateKey(env, c) }

  function AddedNames(add: seq<Planned>): set<string> { set p | p in add :: p.tuber.name }

  /** An existing tuber or an earlier candidate covers the last one. */
  predicate Covered(env: Env, ts: seq<Tuber>, cs: seq<Candidate>)
    requires cs != []
  {
    var k := CandidateKey(env, cs[|cs| - 1]);
    k in Keys(env, ts) || k in CandidateKeys(env, cs[..|cs| - 1])
  }

  function TuberOf(name: string, c: Candidate): Tuber { Tuber(name, c.typ, c.local, c.remote, c.sshHost, "", 0) }

  /** The plan, or None when some host does not resolve. */
  function PlanFor(env: Env, ts: seq<Tuber>, cs: seq<Candidate>): Option<Plan>
    decreases |cs|
  {
    if cs == [] then Some(Plan([], []))
    else
      var c := cs[|cs| - 1];
      var before := PlanFor(env, ts, cs[..|cs| - 1]);
      if before.None? || env.resolve(c.sshHost).0 == "" then None
      else
        var p := before.value;
        if Covered(env, ts, cs) then Some(p.(skipped := p.skipped + [c]))
        else Some(p.(add := p.add + [Planned(TuberOf(NameFor(env, c, Names(ts) + AddedNames(p.add)), c), c)]))
  }

  lemma PlanNext(env: Env, ts: seq<Tuber>, cs: seq<Candidate>, i: nat)
    requires i < |cs| && PlanFor(env, ts, cs[..i]).Some?
    ensures var c := cs[i];
      var p := PlanFor(env, ts, cs[..i]).value;
      var k := CandidateKey(env, c);
      PlanFor(env, ts, cs[..i + 1]) ==
      if env.resolve(c.sshHost).0 == "" then None
      else if k in Keys(env, ts) + CandidateKeys(env, cs[..i]) then Some(p.(skipped := p.skipped + [c]))
      else Some(p.(add := p.add + [Planned(TuberOf(NameFor(env, c, Names(ts) + AddedNames(p.add)), c), c)]))
  {
    assert cs[..i + 1][..i] == cs[..i];
  }

  /** PlanImport's variables once these candidates are done. */
  ghost predicate Planning(env: Env, ts: seq<Tuber>, cs: seq<Candidate>, taken: set<string>, covered: set<string>,
                           add: seq<Planned>, skipped: seq<Candidate>) {
    && PlanFor(env, ts, cs) == Some(Plan(add, skipped))
    && taken == Names(ts) + AddedNames(add)
    && covered == Keys(env, ts) + CandidateKeys(env, cs)
  }

  lemma PlanningSkips(env: Env, ts: seq<Tuber>, cs: seq<Candidate>, i: nat, taken: set<string>, covered: set<string>,
                      add: seq<Planned>, skipped: seq<Candidate>)
    requires i < |cs| && Planning(env, ts, cs[..i], taken, covered, add, skipped)
    requires env.resolve(cs[i].sshHost).0 != "" && CandidateKey(env, cs[i]) in covered
    ensures Planning(env, ts, cs[..i + 1], taken, covered + {CandidateKey(env, cs[i])}, add, skipped + [cs[i]])
  {
    PlanNext(env, ts, cs, i);
    KeysGrow(env, ts, cs, i);
  }

  lemma PlanningAdds(env: Env, ts: seq<Tuber>, cs: seq<Candidate>, i: nat, taken: set<string>, covered: set<string>,
                     add: seq<Planned>, skipped: seq<Candidate>)
    requires i < |cs| && Planning(env, ts, cs[..i], taken, covered, add, skipped)
    requires env.resolve(cs[i].sshHost).0 != "" && CandidateKey(env, cs[i]) !in covered
    ensures var name := NameFor(env, cs[i], taken);
      Planning(env, ts, cs[..i + 1], taken + {name}, covered + {CandidateKey(env, cs[i])},
               add + [Planned(TuberOf(name, cs[i]), cs[i])], skipped)
  {
    PlanNext(env, ts, cs, i);
    KeysGrow(env, ts, cs, i);
    NamesGrow(ts, add, Planned(TuberOf(NameFor(env, cs[i], taken), cs[i]), cs[i]));
  }

  method PlanImport(env: Env, ts: seq<Tuber>, cs: seq<Candidate>) returns (plan: Option<Plan>)
    ensures plan == PlanFor(env, ts, cs)
  {
    var taken, covered := Existing(env, ts);
    var add: seq<Planned>, skipped: seq<Candidate> := [], [];
    var i := 0;
    while i < |cs|
      invariant 0 <= i <= |cs|
      invariant Planning(env, ts, cs[..i], taken, covered, add, skipped)
    {
      var c := cs[i];
      var (host, port) := env.resolve(c.sshHost);
      if host == "" {
        PlanNext(env, ts, cs, i);
        PlanFails(env, ts, cs, i + 1);
        return None;
      }
      var key := CoverageKey(env, c.typ, c.local, c.remote, host, port);
      if key in covered {
        PlanningSkips(env, ts, cs, i, taken, covered, add, skipped);
        skipped := skipped + [c];
      } else {
        PlanningAdds(env, ts, cs, i, taken, covered, add, skipped);
        var name := TuberName(env, c, taken);
        taken := taken + {name};
        add := add + [Planned(TuberOf(name, c), c)];
      }
      covered := covered + {key};
      i := i + 1;
    }
    assert cs[..|cs|] == cs;
    return Some(Plan(add, skipped));
  }

  method Existing(env: Env, ts: seq<Tuber>) returns (taken: set<string>, covered: set<string>)
    ensures taken == Names(ts) && covered == Keys(env, ts)
  {
    taken, covered := {}, {};
    var i := 0;
    while i < |ts|
      invariant 0 <= i <= |ts|
      invariant taken == Names(ts[..i]) && covered == Keys(env, ts[..i])
    {
      var t := ts[i];
      ExistingNext(env, ts, i);
      taken := taken + {t.name};
      var host, port := t.host, t.port;
      if TrimSpace(t.ssh) != "" {
        var (h, p) := env.resolve(t.ssh);
        if h != "" {
          host, port := h, p;
        }
      }
      covered := covered + {CoverageKey(env, t.typ, t.local, t.remote, host, port)};
      i := i + 1;
    }
    assert ts[..|ts|] == ts;
  }

  lemma ExistingNext(env: Env, ts: seq<Tuber>, i: nat)
    requires i < |ts|
    ensures Names(ts[..i + 1]) == Names(ts[..i]) + {ts[i].name}
    ensures Keys(env, ts[..i + 1]) == Keys(env, ts[..i]) + {TuberKey(env, ts[i])}
  {
    assert ts[..i + 1] == ts[..i] + [ts[i]];
  }

  lemma KeysGrow(env: Env, ts: seq<Tuber>, cs: seq<Candidate>, i: nat)
    requires i < |cs|
    ensures Keys(env, ts) + CandidateKeys(env, cs[..i + 1]) ==
            Keys(env, ts) + CandidateKeys(env, cs[..i]) + {CandidateKey(env, cs[i])}
  {
    assert cs[..i + 1] == cs[..i] + [cs[i]];
  }

  lemma NamesGrow(ts: seq<Tuber>, add: seq<Planned>, p: Planned)
    ensures Names(ts) + AddedNames(add + [p]) == Names(ts) + AddedNames(add) + {p.tuber.name}
  {
  }

  lemma {:induction false} PlanFails(env: Env, ts: seq<Tuber>, cs: seq<Candidate>, i: nat)
    requires i <= |cs| && PlanFor(env, ts, cs[..i]).None?
    ensures PlanFor(env, ts, cs).None?
    decreases |cs|
  {
    if i == |cs| {
      assert cs[..i] == cs;
    } else {
      assert cs[..|cs| - 1][..i] == cs[..i];
      PlanFails(env, ts, cs[..|cs| - 1], i);
    }
  }

  // ----- What a plan is -----

  /** The candidates with, or without, something before them that covers them. */
  function Select(env: Env, ts: seq<Tuber>, cs: seq<Candidate>, want: bool): seq<Candidate>
    decreases |cs|
  {
    if cs == [] then []
    else
      var rest := Select(env, ts, cs[..|cs| - 1], want);
      if Covered(env, ts, cs) == want then rest + [cs[|cs| - 1]] else rest
  }

  function CandidatesOf(add: seq<Planned>): seq<Candidate> { seq(|add|, i requires 0 <= i < |add| => add[i].candidate) }

  /** Planning fails exactly when a host does not resolve; else Add and Skipped are the uncovered and
      the covered candidates, each in order, and every added tuber carries its candidate's forward. */
  lemma {:induction false} PlanPartitions(env: Env, ts: seq<Tuber>, cs: seq<Candidate>)
    ensures PlanFor(env, ts, cs).Some? <==> forall c | c in cs :: env.resolve(c.sshHost).0 != ""
    ensures PlanFor(env, ts, cs).Some? ==>
      var p := PlanFor(env, ts, cs).value;
      && CandidatesOf(p.add) == Select(env, ts, cs, false) && p.skipped == Select(env, ts, cs, true)
      && forall a | a in p.add ::
        var c := a.candidate;
        a.tuber == Tuber(name := a.tuber.name, typ := c.typ, local := c.local, remote := c.remote, ssh := c.sshHost,
                         host := "", port := 0)
    decreases |cs|
  {
    if cs != [] {
      var n := |cs| - 1;
      assert cs == cs[..n] + [cs[n]];
      PlanPartitions(env, ts, cs[..n]);
      if PlanFor(env, ts, cs[..n]).Some? {
        var add := PlanFor(env, ts, cs[..n]).value.add;
        var one := Planned(TuberOf(NameFor(env, cs[n], Names(ts) + AddedNames(add)), cs[n]), cs[n]);
        assert CandidatesOf(add + [one]) == CandidatesOf(add) + [cs[n]];
      }
    }
  }

  /** Names are new, pairwise distinct, and valid exactly when the declared port is plain digits. */
  lemma {:induction false} PlanNames(env: Env, ts: seq<Tuber>, cs: seq<Candidate>)
    requires PlanFor(env, ts, cs).Some?
    ensures var add := PlanFor(env, ts, cs).value.add;
      && (forall a | a in add :: a.tuber.name !in Names(ts))
      && (forall i, j | 0 <= i < j < |add| :: add[i].tuber.name != add[j].tuber.name)
      && (forall a | a in add :: ValidName(a.tuber.name) <==> '+' !in DeclaredPort(env, a.candidate))
    decreases |cs|
  {
    if cs != [] {
      PlanNames(env, ts, cs[..|cs| - 1]);
      var before := PlanFor(env, ts, cs[..|cs| - 1]).value.add;
      var c := cs[|cs| - 1];
      NameValid(env, c, Names(ts) + AddedNames(before));
      forall i | 0 <= i < |before| ensures before[i].tuber.name in AddedNames(before) {
        assert before[i] in before;
      }
    }
  }

  /** A port written with a plus sign does get through: the one candidate is planned under a name the
      config would not load. */
  lemma PlusSignMakesBadName(env: Env, c: Candidate, n: nat)
    requires 1 <= n <= 65535 && c.typ != "remote" && env.splitHostPort(c.local) == Some(("", "+" + Itoa(n)))
    requires env.resolve(c.sshHost).0 != ""
    ensures var p := PlanFor(env, [], [c]);
      p.Some? && |p.value.add| == 1 && p.value.add[0].candidate == c && !ValidName(p.value.add[0].tuber.name)
  {
    var port := "+" + Itoa(n);
    assert port[1..] == Digits(n);
    DigitsValueOfDigits(n);
    assert Atoi(port) == Some(n) && '+' in port;
    assert [c][..0] == [];
    assert PlanFor(env, [], []) == Some(Plan([], []));
    PlanNames(env, [], [c]);
    var add := PlanFor(env, [], [c]).value.add;
    assert add[0] in add;
  }

  /** The tubers as a later load sees them: target host and port may have been filled in. */
  predicate Loaded(add: seq<Planned>, ts: seq<Tuber>) {
    && |ts| == |add|
    && forall i | 0 <= i < |add| :: add[i].tuber == ts[i].(host := "", port := 0)
  }

  lemma AddedKey(env: Env, a: Planned, t: Tuber)
    requires a.tuber == TuberOf(a.tuber.name, a.candidate) && a.tuber == t.(host := "", port := 0)
    requires TrimSpace(a.candidate.sshHost) != "" && env.resolve(a.candidate.sshHost).0 != ""
    ensures TuberKey(env, t) == CandidateKey(env, a.candidate)
  {
  }

  /** Once planned and added, every candidate is covered. */
  lemma {:induction false} AllCovered(env: Env, ts: seq<Tuber>, cs: seq<Candidate>, c: Candidate)
    requires c in cs
    ensures CandidateKey(env, c) in Keys(env, ts) + CandidateKeys(env, Select(env, ts, cs, false))
    decreases |cs|
  {
    var n := |cs| - 1;
    assert cs == cs[..n] + [cs[n]];
    if c in cs[..n] {
      AllCovered(env, ts, cs[..n], c);
      KeysOfMore(env, ts, cs);
    } else if Covered(env, ts, cs) && CandidateKey(env, c) !in Keys(env, ts) {
      var d :| d in cs[..n] && CandidateKey(env, d) == CandidateKey(env, c);
      AllCovered(env, ts, cs[..n], d);
      KeysOfMore(env, ts, cs);
    }
  }

  lemma KeysOfMore(env: Env, ts: seq<Tuber>, cs: seq<Candidate>)
    requires cs != []
    ensures CandidateKeys(env, Select(env, ts, cs[..|cs| - 1], false)) <= CandidateKeys(env, Select(env, ts, cs, false))
  {
  }

  /** Planning the same candidates again, on the configuration with the added tubers, adds nothing. */
  lemma ReplanAddsNothing(env: Env, ts: seq<Tuber>, cs: seq<Candidate>, added: seq<Tuber>)
    requires PlanFor(env, ts, cs).Some? && Loaded(PlanFor(env, ts, cs).value.add, added)
    requires forall c | c in cs :: TrimSpace(c.sshHost) != ""
    ensures PlanFor(env, ts + added, cs) == Some(Plan([], cs))
  {
    var add := PlanFor(env, ts, cs).value.add;
    PlanPartitions(env, ts, cs);
    var chosen := Select(env, ts, cs, false);
    forall c | c in chosen ensures CandidateKey(env, c) in Keys(env, ts + added) {
      var i :| 0 <= i < |chosen| && chosen[i] == c;
      assert CandidatesOf(add)[i] == add[i].candidate && add[i] in add;
      SelectedAreGiven(env, ts, cs, false, c);
      AddedKey(env, add[i], added[i]);
      assert added[i] in ts + added;
    }
    forall c | c in cs ensures CandidateKey(env, c) in Keys(env, ts + added) {
      AllCovered(env, ts, cs, c);
      if CandidateKey(env, c) in Keys(env, ts) {
        var t :| t in ts && TuberKey(env, t) == CandidateKey(env, c);
        assert t in ts + added;
      } else {
        var d :| d in chosen && CandidateKey(env, d) == CandidateKey(env, c);
      }
    }
    CoveredAddsNothing(env, ts + added, cs);
  }

  lemma {:induction false} SelectedAreGiven(env: Env, ts: seq<Tuber>, cs: seq<Candidate>, want: bool, c: Candidate)
    requires c in Select(env, ts, cs, want)
    ensures c in cs
    decreases |cs|
  {
    if c in Select(env, ts, cs[..|cs| - 1], want) {
      SelectedAreGiven(env, ts, cs[..|cs| - 1], want, c);
    }
  }

  lemma {:induction false} CoveredAddsNothing(env: Env, ts: seq<Tuber>, cs: seq<Candidate>)
    requires forall c | c in cs :: CandidateKey(env, c) in Keys(env, ts) && env.resolve(c.sshHost).0 != ""
    ensures PlanFor(env, ts, cs) == Some(Plan([], cs))
    decreases |cs|
  {
    if cs != [] {
      var n := |cs| - 1;
      assert cs[..n + 1] == cs == cs[..n] + [cs[n]];
      CoveredAddsNothing(env, ts, cs[..n]);
      PlanNext(env, ts, cs, n);
    }
  }
}
