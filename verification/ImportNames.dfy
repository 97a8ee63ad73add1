/** The names an import gives its tubers, and when it takes two forwards for the same
    (internal/importer/plan.go). */
module ImportNames {

  import opened ImportPlan
  import opened Text
  import opened Wrappers

  // ----- Names -----

  /** A character that a name takes over from a host pattern in lower case. */
  predicate Usual(c: char) { 'a' <= c <= 'z' || '0' <= c <= '9' || c == '-' || c == '_' }

  predicate Word(w: string) { w != "" && forall i | 0 <= i < |w| :: Usual(w[i]) }

  predicate Foreign(g: string) { forall i | 0 <= i < |g| :: !Usual(g[i]) }

  /** The name so far, with the dash that is owed. */
  function Due(r: (string, bool)): string { if r.1 && r.0 != "" then r.0 + "-" else r.0 }

  lemma UsualIsKept(s: string, c: char)
    requires Usual(c)
    ensures Sanitizing(s + [c]) == (Due(Sanitizing(s)) + [c], false)
  {
    assert (s + [c])[..|s|] == s;
  }

  lemma {:induction false} WordIsKept(s: string, w: string)
    requires Word(w)
    ensures Sanitizing(s + w) == (Due(Sanitizing(s)) + w, false)
    decreases |w|
  {
    var less, c := w[..|w| - 1], w[|w| - 1];
    if less == "" {
      assert w == [c];
      UsualIsKept(s, c);
    } else {
      WordIsKept(s, less);
      UsualIsKept(s + less, c);
      Snoc(s, less, c, w);
      Snoc(Due(Sanitizing(s)), less, c, w);
    }
  }

  lemma Snoc(a: string, less: string, c: char, w: string)
    requires w == less + [c]
    ensures a + less + [c] == a + w
  {
  }

  lemma {:induction false} ForeignIsDropped(s: string, g: string)
    requires Foreign(g)
    ensures Sanitizing(s + g) == (Sanitizing(s).0, Sanitizing(s).1 || g != "")
    decreases |g|
  {
    if g == "" {
      assert s + g == s;
    } else {
      assert (s + g)[..|s + g| - 1] == s + g[..|g| - 1];
      ForeignIsDropped(s, g[..|g| - 1]);
    }
  }

  predicate Spaced(ws: seq<string>, gaps: seq<string>) {
    && ws != [] && |gaps| >= |ws| && (forall w | w in ws :: Word(w))
    && forall i | 1 <= i < |ws| :: gaps[i] != "" && Foreign(gaps[i])
  }

  lemma OneMoreWord(before: string, joined: string, gap: string, w: string)
    requires Sanitizing(before) == (joined, false) && joined != "" && gap != "" && Foreign(gap) && Word(w)
    ensures Sanitizing(before + gap + w) == (joined + "-" + w, false)
  {
    ForeignIsDropped(before, gap);
    WordIsKept(before + gap, w);
  }

  lemma LastWord(lead: string, ws: seq<string>, gaps: seq<string>, n: nat)
    requires |ws| == n + 1 && n > 0 && |gaps| >= |ws|
    ensures lead + Spread(ws, gaps) == lead + Spread(ws[..n], gaps) + gaps[n] + ws[n]
    ensures Join(ws, '-') == Join(ws[..n], '-') + "-" + ws[n]
  {
    Regroup(lead, Spread(ws[..n], gaps), gaps[n], ws[n]);
  }

  lemma Regroup(a: string, b: string, c: string, d: string)
    ensures a + (b + c + d) == a + b + c + d
  {
  }

  lemma FirstWord(lead: string, w: string)
    requires Foreign(lead) && Word(w)
    ensures Sanitizing(lead + w) == (w, false)
  {
    ForeignIsDropped("", lead);
    assert "" + lead == lead;
    WordIsKept(lead, w);
    assert "" + w == w;
  }

  lemma {:induction false} WordsAreJoined(lead: string, ws: seq<string>, gaps: seq<string>)
    requires Foreign(lead) && Spaced(ws, gaps)
    ensures Sanitizing(lead + Spread(ws, gaps)) == (Join(ws, '-'), false) && Join(ws, '-') != ""
    decreases |ws|
  {
    var n := |ws| - 1;
    assert Word(ws[n]) by { assert ws[n] in ws; }
    if n == 0 {
      FirstWord(lead, ws[0]);
    } else {
      WordsAreJoined(lead, ws[..n], gaps);
      OneMoreWord(lead + Spread(ws[..n], gaps), Join(ws[..n], '-'), gaps[n], ws[n]);
      LastWord(lead, ws, gaps, n);
    }
  }

  /** A host pattern becomes its words in lower case, one dash for each stretch of other characters
      between two and none at the ends. */
  lemma NameIsTheWords(host: string, lead: string, ws: seq<string>, gaps: seq<string>, trail: string)
    requires Foreign(lead) && Foreign(trail) && Spaced(ws, gaps)
    requires ToLower(host) == lead + Spread(ws, gaps) + trail
    ensures Sanitizing(ToLower(host)).0 == Join(ws, '-')
  {
    WordsAreJoined(lead, ws, gaps);
    ForeignIsDropped(lead + Spread(ws, gaps), trail);
  }

  /** Where the forward listens: the remote side of a remote one, the local side of the others. */
  function ListenSide(c: Candidate): string { if c.typ == "remote" then c.remote else c.local }

  /** A port number that is declared there, alone or behind an address, is found. */
  lemma DeclaredPortIs(env: Env, c: Candidate, host: string, n: int)
    requires env.splitHostPort(ListenSide(c)) == Some((host, Itoa(n)))
      || (env.splitHostPort(ListenSide(c)) == None && ListenSide(c) == Itoa(n))
    requires MIN_INT <= n <= MAX_INT
    ensures DeclaredPort(env, c) == if 1 <= n <= 65535 then Itoa(n) else ""
  {
    AtoiOfItoa(n);
  }

  /** A planned name is the words of the host pattern and the declared port; if that is taken, the same
      with the least number from 2 on that is not. */
  lemma NameIs(env: Env, c: Candidate, taken: set<string>, lead: string, ws: seq<string>, gaps: seq<string>,
               trail: string) returns (k: nat)
    requires Foreign(lead) && Foreign(trail) && Spaced(ws, gaps)
    requires ToLower(c.sshHost) == lead + Spread(ws, gaps) + trail
    ensures k >= 1
    ensures var port := DeclaredPort(env, c);
      var base := Join(ws, '-') + if port == "" then "" else "-" + port;
      && NameFor(env, c, taken) == (if k == 1 then base else base + "-" + Itoa(k))
      && NameFor(env, c, taken) !in taken
      && (k > 1 ==> base in taken) && forall j | 2 <= j < k :: base + "-" + Itoa(j) in taken
  {
    WordsAreJoined(lead, ws, gaps);
    NameIsTheWords(c.sshHost, lead, ws, gaps, trail);
    var port := DeclaredPort(env, c);
    var base := Join(ws, '-') + if port == "" then "" else "-" + port;
    assert Join(ws, '-') + "" == Join(ws, '-') && Join(ws, '-') + "-" + port == Join(ws, '-') + ("-" + port);
    assert BaseName(env, c) == base;
    k := FirstFree(base, taken, 1);
    assert k > 1 ==> Suffixed(base, 1) in taken;
    forall j | 2 <= j < k ensures base + "-" + Itoa(j) in taken {
      assert Suffixed(base, j) in taken;
    }
  }

  // ----- What is the same forward -----

  /** The parts of a coverage key, one behind the other. */
  lemma FiveJoined(a: string, b: string, c: string, d: string, e: string)
    ensures Join([a, b, c, d, e], '|') == a + "|" + b + "|" + c + "|" + d + "|" + e
  {
    assert [a] + [b] == [a, b] && [a, b] + [c] == [a, b, c] && [a, b, c] + [d] == [a, b, c, d];
    assert [a, b, c, d] + [e] == [a, b, c, d, e];
    JoinSnoc([a], b);
    JoinSnoc([a, b], c);
    JoinSnoc([a, b, c], d);
    JoinSnoc([a, b, c, d], e);
  }

  lemma JoinSnoc(ls: seq<string>, l: string)
    requires ls != []
    ensures Join(ls + [l], '|') == Join(ls, '|') + "|" + l
  {
    assert (ls + [l])[..|ls|] == ls;
  }

  predicate NoBar(s: string) { '|' !in s }

  function Parts(env: Env, typ: string, local: string, remote: string, host: string, port: int): seq<string> {
    [typ, env.listen(local), env.remoteListen(remote), host, Itoa(port)]
  }

  lemma KeySplits(env: Env, typ: string, local: string, remote: string, host: string, port: int)
    requires NoBar(typ) && NoBar(env.listen(local)) && NoBar(env.remoteListen(remote)) && NoBar(host)
    ensures Split(CoverageKey(env, typ, local, remote, host, port), '|') == Parts(env, typ, local, remote, host, port)
  {
    var parts := Parts(env, typ, local, remote, host, port);
    FiveJoined(typ, env.listen(local), env.remoteListen(remote), host, Itoa(port));
    if '|' in Itoa(port) { ItoaHasOnly(port, '|'); }
    SplitOfJoin(parts, '|');
  }

  /** Two forwards cover each other exactly if type, expanded listen addresses, host and port are the
      same, as long as none of them holds a bar. */
  lemma CoversIff(env: Env, typ: string, local: string, remote: string, host: string, port: int,
                  typ': string, local': string, remote': string, host': string, port': int)
    requires NoBar(typ) && NoBar(env.listen(local)) && NoBar(env.remoteListen(remote)) && NoBar(host)
    requires NoBar(typ') && NoBar(env.listen(local')) && NoBar(env.remoteListen(remote')) && NoBar(host')
    requires MIN_INT <= port <= MAX_INT && MIN_INT <= port' <= MAX_INT
    ensures CoverageKey(env, typ, local, remote, host, port) == CoverageKey(env, typ', local', remote', host', port')
      <==>
      && typ == typ' && env.listen(local) == env.listen(local') && env.remoteListen(remote) == env.remoteListen(remote')
      && host == host' && port == port'
  {
    KeySplits(env, typ, local, remote, host, port);
    KeySplits(env, typ', local', remote', host', port');
    var (a, b) := (Parts(env, typ, local, remote, host, port), Parts(env, typ', local', remote', host', port'));
    if a == b { assert a[0] == b[0] && a[1] == b[1] && a[2] == b[2] && a[3] == b[3] && a[4] == b[4]; }
    AtoiOfItoa(port);
    AtoiOfItoa(port');
  }

  /** With a bar in an address two different forwards can be taken for the same. */
  lemma BarConfuses(env: Env, port: int)
    requires env.listen("1") == "a|b" && env.remoteListen("2") == "c" && env.listen("3") == "a"
      && env.remoteListen("4") == "b|c"
    ensures CoverageKey(env, "local", "1", "2", "h", port) == CoverageKey(env, "local", "3", "4", "h", port)
  {
    BarMoves("local|", "a", "b", "c", "|h|" + Itoa(port));
  }

  lemma BarMoves(x: string, a: string, b: string, c: string, y: string)
    ensures x + (a + "|" + b) + "|" + c + y == x + a + "|" + (b + "|" + c) + y
  {
  }
}
