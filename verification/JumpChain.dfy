/** Deriving a tuber's target and jump hosts from `ssh:`, `jump:` and ssh_config aliases
    (internal/config/config.go).  The ssh_config lookup is a function from alias to values, and
    `me` is the name of the current OS user. */
module JumpChain {

  import opened Text
  import opened Wrappers

  const DEFAULT_PORT: int := 22

  datatype Hop = Hop(user: string, host: string, port: int)

  datatype Parsed = Parsed(hop: Hop, userExplicit: bool, portExplicit: bool)

  // ----- Parsing and printing one hop -----

  /** `host[:port]`: a numeric part after the last ':' is the port. */
  function ParseHostPort(s: string): (string, Option<int>) {
    var colon := LastIndexOf(s, ':');
    var port := if colon < 0 then None else Atoi(s[colon + 1..]);
    (if port.Some? then s[..colon] else s, port)
  }

  /** `user@host[:port]`; None when blank.  The last '@' ends the user. */
  function ParseSsh(text: string, me: string): Option<Parsed> { ParseText(TrimSpace(text), me) }

  function ParseText(s: string, me: string): Option<Parsed> {
    if s == "" then None
    else
      var at := LastIndexOf(s, '@');
      var (host, port) := ParseHostPort(s[at + 1..]);
      Some(Parsed(Hop(if at < 0 then me else s[..at], host, if port.Some? then port.value else DEFAULT_PORT),
                  at >= 0, port.Some?))
  }

  function Print(h: Hop): string { h.user + "@" + h.host + ":" + Itoa(h.port) }

  /** What a hop needs to come back from its printed form inside a comma-separated chain. */
  predicate Survives(h: Hop) { ',' !in h.user && ',' !in h.host && Readable(h) }

  /** What a hop needs to come back from its printed form alone. */
  predicate Readable(h: Hop) { '@' !in h.host && (h.user == "" || !IsSpace(h.user[0])) }

  predicate InInt(n: int) { MIN_INT <= n <= MAX_INT }

  lemma {:induction false} LastIndexIs(a: string, c: char, b: string)
    requires c !in b
    ensures LastIndexOf(a + [c] + b, c) == |a|
    decreases |b|
  {
    var s := a + [c] + b;
    if b != "" {
      assert s[..|s| - 1] == a + [c] + b[..|b| - 1];
      LastIndexIs(a, c, b[..|b| - 1]);
    }
  }

  lemma NumberHas(n: int, c: char)
    requires c == ',' || c == ':' || c == '@'
    ensures c !in Itoa(n) && Itoa(n) != "" && !IsSpace(Itoa(n)[|Itoa(n)| - 1])
  {
    if c in Itoa(n) { ItoaHasOnly(n, c); }
    var last := Itoa(n)[|Itoa(n)| - 1];
    ItoaHasOnly(n, last);
  }

  lemma TrimNothing(s: string)
    requires s != "" && !IsSpace(s[0]) && !IsSpace(s[|s| - 1])
    ensures TrimSpace(s) == s
  {
  }

  lemma HostPortParses(host: string, port: int)
    requires InInt(port)
    ensures ParseHostPort(host + ":" + Itoa(port)) == (host, Some(port))
  {
    var s := host + ":" + Itoa(port);
    NumberHas(port, ':');
    LastIndexIs(host, ':', Itoa(port));
    assert s[..|host|] == host && s[|host| + 1..] == Itoa(port);
    AtoiOfItoa(port);
  }

  lemma {:induction false} TrimKeeps(s: string, c: char)
    requires c in s && !IsSpace(c)
    ensures c in TrimSpace(s)
    decreases |s|
  {
    assert s == [s[0]] + s[1..] && s == s[..|s| - 1] + [s[|s| - 1]];
    if IsSpace(s[0]) {
      TrimKeeps(s[1..], c);
    } else if IsSpace(s[|s| - 1]) {
      TrimKeeps(s[..|s| - 1], c);
    }
  }

  /** Printing and parsing again gives a hop back exactly when it is Readable. */
  lemma HopRoundTrip(h: Hop, me: string)
    requires InInt(h.port)
    ensures var r := ParseSsh(Print(h), me);
      && r.Some?
      && (r.value.hop == h <==> Readable(h))
      && (Readable(h) ==> r.value.userExplicit && r.value.portExplicit)
  {
    PrintedEnds(h);
    if Readable(h) {
      ReadableComesBack(h, me);
    } else if h.user != "" && IsSpace(h.user[0]) {
      assert '@' in Print(h);
      TrimKeeps(Print(h), '@');
      UserIsTrimmed(Print(h), me);
    } else {
      TrimNothing(Print(h));
      HostHasNoAt(Print(h), me);
    }
  }

  lemma PrintEndsInDigit(h: Hop)
    ensures Print(h) != "" && !IsSpace(Print(h)[|Print(h)| - 1])
  {
    NumberHas(h.port, ',');
    var s := Print(h);
    assert s[|s| - 1] == Itoa(h.port)[|Itoa(h.port)| - 1];
  }

  lemma PrintedEnds(h: Hop)
    ensures var s := Print(h); s != "" && !IsSpace(s[|s| - 1]) && TrimSpace(s) != ""
    ensures h.user == "" ==> Print(h)[0] == '@'
    ensures h.user != "" ==> Print(h)[0] == h.user[0]
  {
    PrintEndsInDigit(h);
    TrimKeepsLast(Print(h));
  }

  lemma {:induction false} TrimKeepsLast(s: string)
    requires s != "" && !IsSpace(s[|s| - 1])
    ensures TrimSpace(s) != ""
    decreases |s|
  {
    if IsSpace(s[0]) { TrimKeepsLast(s[1..]); }
  }

  lemma PrintedSplitsAtUser(h: Hop)
    requires '@' !in h.host
    ensures var s := Print(h);
      var at := LastIndexOf(s, '@');
      at == |h.user| && s[..at] == h.user && s[at + 1..] == h.host + ":" + Itoa(h.port)
  {
    var s := Print(h);
    var hostPart := h.host + ":" + Itoa(h.port);
    NumberHas(h.port, '@');
    assert '@' !in hostPart;
    assert s == h.user + ['@'] + hostPart;
    LastIndexIs(h.user, '@', hostPart);
  }

  lemma ReadableComesBack(h: Hop, me: string)
    requires InInt(h.port) && Readable(h)
    ensures ParseSsh(Print(h), me) == Some(Parsed(h, true, true))
  {
    PrintedEnds(h);
    TrimNothing(Print(h));
    PrintedSplitsAtUser(h);
    HostPortParses(h.host, h.port);
  }

  /** A parsed user never starts with white space, unless it is the OS user's. */
  lemma UserIsTrimmed(text: string, me: string)
    ensures var r := ParseSsh(text, me);
      r.Some? && r.value.userExplicit ==> r.value.hop.user == "" || !IsSpace(r.value.hop.user[0])
  {
  }

  lemma AfterLastAt(s: string)
    ensures '@' !in s[LastIndexOf(s, '@') + 1..]
  {
    var at := LastIndexOf(s, '@');
    var rest := s[at + 1..];
    forall k | 0 <= k < |rest| ensures rest[k] != '@' {
      assert rest[k] == s[at + 1 + k];
    }
  }

  lemma HostWithin(s: string)
    requires '@' !in s
    ensures '@' !in ParseHostPort(s).0
  {
  }

  lemma HostHasNoAt(text: string, me: string)
    ensures var r := ParseSsh(text, me); r.Some? ==> '@' !in r.value.hop.host
  {
    var s := TrimSpace(text);
    AfterLastAt(s);
    HostWithin(s[LastIndexOf(s, '@') + 1..]);
  }

  // ----- Chains -----

  /** The values there are, in order. */
  function Collected(ps: seq<Option<Hop>>): seq<Hop>
    decreases |ps|
  {
    if ps == [] then []
    else
      var last := ps[|ps| - 1];
      if last.None? then Collected(ps[..|ps| - 1]) else Collected(ps[..|ps| - 1]) + [last.value]
  }

  lemma CollectedNext(ps: seq<Option<Hop>>, i: nat)
    requires i < |ps|
    ensures Collected(ps[..i + 1]) == if ps[i].None? then Collected(ps[..i]) else Collected(ps[..i]) + [ps[i].value]
  {
    assert ps[..i + 1][..i] == ps[..i];
  }

  lemma {:induction false} CollectedAll(ps: seq<Option<Hop>>)
    requires forall i | 0 <= i < |ps| :: ps[i].Some?
    ensures |Collected(ps)| == |ps| && forall i | 0 <= i < |ps| :: Collected(ps)[i] == ps[i].value
    decreases |ps|
  {
    if ps != [] { CollectedAll(ps[..|ps| - 1]); }
  }

  function ReadHop(tok: string, me: string): Option<Hop> {
    var p := ParseSsh(tok, me);
    if p.None? then None else Some(p.value.hop)
  }

  lemma ReadHopMeans(tok: string, me: string)
    ensures ReadHop(tok, me).Some? <==> TrimSpace(tok) != ""
    ensures ReadHop(tok, me).Some? ==> ParseSsh(tok, me).Some? && ReadHop(tok, me).value == ParseSsh(tok, me).value.hop
  {
  }

  function ReadHops(toks: seq<string>, me: string): seq<Option<Hop>> {
    seq(|toks|, i requires 0 <= i < |toks| => ReadHop(toks[i], me))
  }

  /** The dial's reading of a chain: tokens that do not parse are passed over in silence. */
  function ParseChain(jump: string, me: string): seq<Hop> {
    if TrimSpace(jump) == "" then [] else Collected(ReadHops(Split(jump, ','), me))
  }

  method ParseJumpChain(jump: string, me: string) returns (hops: seq<Hop>)
    ensures hops == ParseChain(jump, me)
  {
    hops := [];
    if TrimSpace(jump) == "" {
      return;
    }
    var toks := Split(jump, ',');
    ghost var ps := ReadHops(toks, me);
    var i := 0;
    while i < |toks|
      invariant 0 <= i <= |toks|
      invariant hops == Collected(ps[..i])
    {
      CollectedNext(ps, i);
      ReadHopMeans(toks[i], me);
      assert ps[i] == ReadHop(toks[i], me);
      if TrimSpace(toks[i]) != "" {
        var p := ParseSsh(toks[i], me);
        if p.Some? {
          hops := hops + [p.value.hop];
        }
      }
      i := i + 1;
    }
    assert ps[..|toks|] == ps;
  }

  datatype Error = EmptyHop(n: nat) | NoHost(n: nat) | BadPort(n: nat) | Blank | Cycle(host: string)

  /** What is wrong with hop number n of a chain, if anything. */
  function HopError(tok: string, n: nat, me: string): Option<Error> {
    var p := ParseSsh(tok, me);
    if p.None? then Some(EmptyHop(n))
    else if p.value.hop.host == "" then Some(NoHost(n))
    else if !(1 <= p.value.hop.port <= 65535) then Some(BadPort(n))
    else None
  }

  function Problems(toks: seq<string>, me: string): seq<Option<Error>> {
    seq(|toks|, i requires 0 <= i < |toks| => HopError(toks[i], i + 1, me))
  }

  function FirstOf(es: seq<Option<Error>>, n: nat): Option<Error>
    requires n <= |es|
    decreases |es| - n
  {
    if n == |es| then None else if es[n].Some? then es[n] else FirstOf(es, n + 1)
  }

  /** The first thing wrong with a chain. */
  function JumpError(text: string, me: string): Option<Error> {
    var jump := TrimSpace(text);
    if jump == "" then None else FirstOf(Problems(Split(jump, ','), me), 0)
  }

  method ValidateJump(text: string, me: string) returns (e: Option<Error>)
    ensures e == JumpError(text, me)
  {
    var jump := TrimSpace(text);
    if jump == "" {
      return None;
    }
    var toks := Split(jump, ',');
    ghost var es := Problems(toks, me);
    var n := 0;
    while n < |toks|
      invariant 0 <= n <= |toks|
      invariant FirstOf(es, n) == FirstOf(es, 0)
    {
      e := CheckHop(toks[n], n + 1, me);
      FirstOfNext(toks, n, me);
      if e.Some? {
        return e;
      }
      n := n + 1;
    }
    return None;
  }

  lemma FirstOfNext(toks: seq<string>, n: nat, me: string)
    requires n < |toks|
    ensures var e := HopError(toks[n], n + 1, me);
      FirstOf(Problems(toks, me), n) == if e.Some? then e else FirstOf(Problems(toks, me), n + 1)
  {
    assert Problems(toks, me)[n] == HopError(toks[n], n + 1, me);
  }

  method CheckHop(text: string, n: nat, me: string) returns (e: Option<Error>)
    ensures e == HopError(text, n, me)
  {
    var tok := TrimSpace(text);
    TrimAgain(text);
    if tok == "" {
      return Some(EmptyHop(n));
    }
    var p := ParseSsh(tok, me);
    if p.value.hop.host == "" {
      return Some(NoHost(n));
    }
    if p.value.hop.port < 1 || p.value.hop.port > 65535 {
      return Some(BadPort(n));
    }
    return None;
  }

  lemma {:induction false} AcceptedIffAllFine(es: seq<Option<Error>>, n: nat)
    requires n <= |es|
    ensures FirstOf(es, n).None? <==> forall i | n <= i < |es| :: es[i].None?
    decreases |es| - n
  {
    if n < |es| {
      AcceptedIffAllFine(es, n + 1);
    }
  }

  /** Blanks at the ends of a text change no token beyond its own blanks. */
  lemma {:induction false} TrimmedTokens(s: string)
    requires TrimSpace(s) != ""
    ensures var a, b := Split(s, ','), Split(TrimSpace(s), ',');
      |a| == |b| && forall i | 0 <= i < |a| :: TrimSpace(a[i]) == TrimSpace(b[i])
    decreases |s|
  {
    if IsSpace(s[0]) {
      TrimmedTokens(s[1..]);
      SplitHead(s);
    } else if IsSpace(s[|s| - 1]) {
      TrimmedTokens(s[..|s| - 1]);
      var r := Split(s[..|s| - 1], ',');
      TrimLast(r[|r| - 1], s[|s| - 1]);
    }
  }

  lemma {:induction false} SplitHead(s: string)
    requires s != "" && s[0] != ','
    ensures var r := Split(s[1..], ','); Split(s, ',') == r[0 := [s[0]] + r[0]]
    decreases |s|
  {
    var c := s[|s| - 1];
    if |s| == 1 {
      assert s == "" + [c] && [s[0]] + "" == [c];
      assert s[..0] == "" && s[1..] == "";
      assert Split(s, ',') == [""][0 := "" + [c]];
    } else {
      SplitHead(s[..|s| - 1]);
      assert s[..|s| - 1][1..] == s[1..][..|s| - 2];
      var r := Split(s[1..][..|s| - 2], ',');
      if c != ',' && |r| == 1 {
        assert [s[0]] + r[0] + [c] == [s[0]] + (r[0] + [c]);
      }
    }
  }

  lemma {:induction false} TrimLast(s: string, c: char)
    requires IsSpace(c)
    ensures TrimSpace(s + [c]) == TrimSpace(s)
    decreases |s|
  {
    var t := s + [c];
    assert t[..|t| - 1] == s;
    if s != "" && IsSpace(s[0]) {
      TrimLast(s[1..], c);
      assert t[1..] == s[1..] + [c];
    } else if s == "" {
      assert t[1..] == "";
    }
  }

  lemma TrimmedToken(s: string, i: nat)
    requires TrimSpace(s) != "" && i < |Split(s, ',')|
    ensures i < |Split(TrimSpace(s), ',')| && TrimSpace(Split(s, ',')[i]) == TrimSpace(Split(TrimSpace(s), ',')[i])
  {
    TrimmedTokens(s);
  }

  lemma AcceptedAt(toks: seq<string>, me: string, i: nat)
    requires FirstOf(Problems(toks, me), 0).None? && i < |toks|
    ensures HopError(toks[i], i + 1, me).None?
  {
    AcceptedIffAllFine(Problems(toks, me), 0);
    assert Problems(toks, me)[i].None?;
  }

  /** Every token of a chain that passes validation parses. */
  lemma ValidTokensRead(jump: string, me: string, i: nat)
    requires TrimSpace(jump) != "" && JumpError(jump, me).None? && i < |Split(jump, ',')|
    ensures ReadHop(Split(jump, ',')[i], me).Some?
  {
    TrimmedToken(jump, i);
    AcceptedAt(Split(TrimSpace(jump), ','), me, i);
    FineReads(Split(jump, ',')[i], Split(TrimSpace(jump), ',')[i], i + 1, me);
  }

  /** A chain that passes validation loses no token in the dial's reading of it. */
  lemma ValidChainIsComplete(jump: string, me: string)
    requires TrimSpace(jump) != "" && JumpError(jump, me).None?
    ensures var ps := ReadHops(Split(jump, ','), me);
      && |ParseChain(jump, me)| == |ps|
      && forall i | 0 <= i < |ps| :: ps[i] == Some(ParseChain(jump, me)[i])
  {
    var ps := ReadHops(Split(jump, ','), me);
    forall i | 0 <= i < |ps| ensures ps[i].Some? {
      ValidTokensRead(jump, me, i);
    }
    CollectedAll(ps);
  }

  lemma FineReads(a: string, b: string, n: nat, me: string)
    requires TrimSpace(a) == TrimSpace(b) && HopError(b, n, me).None?
    ensures ReadHop(a, me).Some?
  {
  }

  // ----- ssh_config aliases -----

  datatype Alias = Alias(hostName: string, user: string, port: string, identity: string, proxyJump: string)

  /** What the decoder finds for an alias; None when there is no ssh_config. */
  type Config = Option<string -> Alias>

  function Lookup(cfg: Config, host: string): Alias {
    if cfg.None? then Alias("", "", "", "", "")
    else
      var a := cfg.value(host);
      Alias(TrimSpace(a.hostName), TrimSpace(a.user), TrimSpace(a.port), TrimSpace(a.identity), TrimSpace(a.proxyJump))
  }

  predicate Matched(v: Alias) { v != Alias("", "", "", "", "") }

  /** An alias fills what was left to default; what was written wins. */
  function Filled(p: Parsed, v: Alias): Hop {
    var port := Atoi(v.port);
    Hop(if !p.userExplicit && v.user != "" then v.user else p.hop.user,
        if v.hostName != "" then v.hostName else p.hop.host,
        if !p.portExplicit && v.port != "" && port.Some? then port.value else p.hop.port)
  }

  /** A hop resolved on its own, and the alias it is resolved through. */
  datatype Step = Unreadable | Step(hop: Hop, alias: Option<string>)

  function StepOf(tok: string, cfg: Config, me: string): Step { StepFrom(ParseSsh(tok, me), cfg) }

  function StepFrom(p: Option<Parsed>, cfg: Config): Step {
    if p.None? then Unreadable
    else
      var v := Lookup(cfg, p.value.hop.host);
      if Matched(v) then Step(Filled(p.value, v), Some(p.value.hop.host)) else Step(p.value.hop, None)
  }

  function StepsOf(toks: seq<string>, cfg: Config, me: string): seq<Step> {
    seq(|toks|, i requires 0 <= i < |toks| => StepOf(toks[i], cfg, me))
  }

  /** A ProxyJump resolved hop by hop with the aliases seen so far, or the first failure. */
  datatype Chain = Failed(e: Error) | Chain(hops: seq<Hop>, visited: set<string>)

  function Next(before: Chain, s: Step): Chain {
    if before.Failed? then before
    else
      match s
      case Unreadable => Failed(Blank)
      case Step(hop, None) => Chain(before.hops + [hop], before.visited)
      case Step(hop, Some(a)) =>
        if a in before.visited then Failed(Cycle(a)) else Chain(before.hops + [hop], before.visited + {a})
  }

  function Resolved(steps: seq<Step>): Chain
    decreases |steps|
  {
    if steps == [] then Chain([], {}) else Next(Resolved(steps[..|steps| - 1]), steps[|steps| - 1])
  }

  function Prints(hops: seq<Hop>): seq<string> { seq(|hops|, i requires 0 <= i < |hops| => Print(hops[i])) }

  method ExpandJumpHop(tok: string, cfg: Config, visited: set<string>, me: string)
    returns (hop: Option<Hop>, seen: set<string>, e: Error)
    ensures match StepOf(tok, cfg, me)
      case Unreadable => hop.None? && e == Blank
      case Step(h, None) => hop == Some(h) && seen == visited
      case Step(h, Some(a)) =>
        if a in visited then hop.None? && e == Cycle(a) else hop == Some(h) && seen == visited + {a}
  {
    seen, e := visited, Blank;
    var parsed := ParseSsh(tok, me);
    if parsed.None? {
      return None, seen, e;
    }
    var p := parsed.value;
    var v := Lookup(cfg, p.hop.host);
    if !Matched(v) {
      return Some(p.hop), seen, e;
    }
    if p.hop.host in visited {
      return None, seen, Cycle(p.hop.host);
    }
    seen := seen + {p.hop.host};
    var user, host, port := p.hop.user, p.hop.host, p.hop.port;
    if v.hostName != "" {
      host := v.hostName;
    }
    if !p.userExplicit && v.user != "" {
      user := v.user;
    }
    if !p.portExplicit && v.port != "" {
      var n := Atoi(v.port);
      if n.Some? {
        port := n.value;
      }
    }
    hop := Some(Hop(user, host, port));
  }

  method ResolveJumpChain(pj: string, cfg: Config, me: string) returns (text: Option<string>, e: Error)
    ensures match Resolved(StepsOf(Split(pj, ','), cfg, me))
      case Failed(err) => text.None? && e == err
      case Chain(hops, _) => text == Some(Join(Prints(hops), ','))
  {
    var toks := Split(pj, ',');
    ghost var steps := StepsOf(toks, cfg, me);
    ghost var hops: seq<Hop> := [];
    var out: seq<string> := [];
    var visited: set<string> := {};
    var i := 0;
    e := Blank;
    while i < |toks|
      invariant 0 <= i <= |toks|
      invariant Gathered(steps[..i], hops, visited, out)
    {
      GatheredNext(steps, i, hops, visited, out);
      var tok := TrimSpace(toks[i]);
      StepOfTrimmed(toks[i], cfg, me);
      assert steps[i] == StepOf(tok, cfg, me);
      if tok == "" {
        return None, Blank;
      }
      var hop, seen, err := ExpandJumpHop(tok, cfg, visited, me);
      if hop.None? {
        return None, err;
      }
      hops, visited := hops + [hop.value], seen;
      out := out + [Print(hop.value)];
      i := i + 1;
    }
    assert steps[..|toks|] == steps;
    text := Some(Join(out, ','));
  }

  lemma ParseTrimmed(tok: string, me: string)
    ensures ParseSsh(TrimSpace(tok), me) == ParseSsh(tok, me)
  {
    TrimAgain(tok);
  }

  lemma BlankDoesNotParse(tok: string, me: string)
    requires TrimSpace(tok) == ""
    ensures ParseSsh(tok, me).None?
  {
  }

  lemma StepOfTrimmed(tok: string, cfg: Config, me: string)
    ensures StepOf(TrimSpace(tok), cfg, me) == StepOf(tok, cfg, me)
    ensures TrimSpace(tok) == "" ==> StepOf(tok, cfg, me) == Unreadable
  {
    ParseTrimmed(tok, me);
    if TrimSpace(tok) == "" { BlankDoesNotParse(tok, me); }
  }

  ghost predicate Gathered(steps: seq<Step>, hops: seq<Hop>, visited: set<string>, out: seq<string>) {
    Resolved(steps) == Chain(hops, visited) && out == Prints(hops)
  }

  lemma ResolvedNext(steps: seq<Step>, i: nat)
    requires i < |steps|
    ensures Resolved(steps[..i + 1]) == Next(Resolved(steps[..i]), steps[i])
  {
    assert steps[..i + 1][..i] == steps[..i];
  }

  lemma PrintsNext(hops: seq<Hop>, h: Hop)
    ensures Prints(hops + [h]) == Prints(hops) + [Print(h)]
  {
  }

  /** What the next step does to a resolution under way. */
  lemma GatheredNext(steps: seq<Step>, i: nat, hops: seq<Hop>, visited: set<string>, out: seq<string>)
    requires i < |steps| && Gathered(steps[..i], hops, visited, out)
    ensures match steps[i]
      case Unreadable => Resolved(steps) == Failed(Blank)
      case Step(h, None) => Gathered(steps[..i + 1], hops + [h], visited, out + [Print(h)])
      case Step(h, Some(a)) =>
        if a in visited then Resolved(steps) == Failed(Cycle(a))
        else Gathered(steps[..i + 1], hops + [h], visited + {a}, out + [Print(h)])
  {
    ResolvedNext(steps, i);
    if steps[i].Step? {
      PrintsNext(hops, steps[i].hop);
    }
    if Resolved(steps[..i + 1]).Failed? {
      ResolvedFails(steps, i + 1);
    }
  }

  lemma {:induction false} ResolvedFails(steps: seq<Step>, i: nat)
    requires i <= |steps| && Resolved(steps[..i]).Failed?
    ensures Resolved(steps) == Resolved(steps[..i])
    decreases |steps|
  {
    if i == |steps| {
      assert steps[..i] == steps;
    } else {
      assert steps[..|steps| - 1][..i] == steps[..i];
      ResolvedFails(steps[..|steps| - 1], i);
    }
  }

  /** Every hop is readable and no two hops go through the same alias. */
  ghost predicate NoAliasTwice(steps: seq<Step>) {
    && (forall i | 0 <= i < |steps| :: steps[i].Step?)
    && (forall i, j | 0 <= i < j < |steps| :: steps[i].alias.Some? ==> steps[i].alias != steps[j].alias)
  }

  /** Resolution that succeeds gives each token's own hop in order and has seen the aliases used. */
  lemma {:induction false} ResolvedGives(steps: seq<Step>)
    requires Resolved(steps).Chain?
    ensures var r := Resolved(steps);
      && |r.hops| == |steps| && (forall i | 0 <= i < |steps| :: steps[i].Step? && r.hops[i] == steps[i].hop)
      && (forall i | 0 <= i < |steps| :: steps[i].alias.Some? ==> steps[i].alias.value in r.visited)
    decreases |steps|
  {
    if steps != [] {
      var n := |steps| - 1;
      ResolvedGives(steps[..n]);
      forall i | 0 <= i < n ensures steps[..n][i] == steps[i] {}
    }
  }

  lemma {:induction false} VisitedIsUsed(steps: seq<Step>, a: string) returns (i: nat)
    requires Resolved(steps).Chain? && a in Resolved(steps).visited
    ensures i < |steps| && steps[i].Step? && steps[i].alias == Some(a)
    decreases |steps|
  {
    var n := |steps| - 1;
    if steps[n].alias == Some(a) {
      i := n;
    } else {
      i := VisitedIsUsed(steps[..n], a);
    }
  }

  /** Resolution succeeds exactly when every hop is readable and no alias comes twice. */
  lemma {:induction false} ResolvesIffNoAliasTwice(steps: seq<Step>)
    ensures Resolved(steps).Chain? <==> NoAliasTwice(steps)
    decreases |steps|
  {
    if steps != [] {
      var n := |steps| - 1;
      ResolvesIffNoAliasTwice(steps[..n]);
      forall i | 0 <= i < n ensures steps[..n][i] == steps[i] {}
      var before := Resolved(steps[..n]);
      if before.Chain? && steps[n].Step? {
        ResolvedGives(steps[..n]);
        if steps[n].alias.Some? && steps[n].alias.value in before.visited {
          var i := VisitedIsUsed(steps[..n], steps[n].alias.value);
          assert steps[i].alias == steps[n].alias;
        }
      }
    }
  }

  // ----- Print, join, split and re-parse -----

  lemma {:induction false} SplitConcat(a: string, b: string, sep: char)
    ensures Split(a + [sep] + b, sep) == Split(a, sep) + Split(b, sep)
    decreases |b|
  {
    var s := a + [sep] + b;
    if b == "" {
      assert s[..|s| - 1] == a;
    } else {
      var m, c := b[..|b| - 1], b[|b| - 1];
      SplitConcat(a, m, sep);
      assert s[..|s| - 1] == a + [sep] + m;
      assert s[|s| - 1] == c;
      var p, q := Split(a, sep), Split(m, sep);
      if c == sep {
        assert p + q + [""] == p + (q + [""]);
      } else {
        assert (p + q)[|p + q| - 1 := q[|q| - 1] + [c]] == p + q[|q| - 1 := q[|q| - 1] + [c]];
      }
    }
  }

  lemma {:induction false} SeparatorSplits(s: string, sep: char)
    ensures sep in s <==> |Split(s, sep)| > 1
    decreases |s|
  {
    if s != "" {
      SeparatorSplits(s[..|s| - 1], sep);
      assert s == s[..|s| - 1] + [s[|s| - 1]];
    }
  }

  /** A joined list splits into at least as many pieces, and into as many only when none holds the separator. */
  lemma {:induction false} JoinedCount(ls: seq<string>, sep: char)
    requires ls != []
    ensures var n := |Split(Join(ls, sep), sep)|;
      n >= |ls| && (n == |ls| ==> forall l | l in ls :: sep !in l)
    decreases |ls|
  {
    var k := |ls| - 1;
    SeparatorSplits(ls[k], sep);
    if k > 0 {
      JoinedCount(ls[..k], sep);
      SplitConcat(Join(ls[..k], sep), ls[k], sep);
      assert ls == ls[..k] + [ls[k]];
    }
  }

  lemma PrintHasComma(h: Hop)
    ensures ',' in Print(h) <==> ',' in h.user || ',' in h.host
  {
    NumberHas(h.port, ',');
  }

  lemma JoinEndsLike(ls: seq<string>, last: string)
    requires ls != [] && ls[|ls| - 1] == last && last != ""
    ensures var s := Join(ls, ','); s != "" && s[|s| - 1] == last[|last| - 1]
  {
  }

  lemma PrintedChainEnds(hops: seq<Hop>)
    requires hops != []
    ensures var s := Join(Prints(hops), ','); s != "" && !IsSpace(s[|s| - 1])
  {
    var ls, last := Prints(hops), Print(hops[|hops| - 1]);
    PrintEndsInDigit(hops[|hops| - 1]);
    assert ls[|ls| - 1] == last;
    JoinEndsLike(ls, last);
  }

  lemma PrintedChainNotBlank(hops: seq<Hop>)
    requires hops != []
    ensures TrimSpace(Join(Prints(hops), ',')) != ""
  {
    PrintedChainEnds(hops);
    TrimKeepsLast(Join(Prints(hops), ','));
  }

  lemma ReadPrint(h: Hop, me: string)
    requires InInt(h.port)
    ensures var r := ReadHop(Print(h), me); r.Some? && (r.value == h <==> Readable(h))
  {
    HopRoundTrip(h, me);
  }

  /** Reading the tokens a chain was printed from gives the hops back exactly when all are Readable. */
  lemma ReadPrints(hops: seq<Hop>, me: string)
    requires forall h | h in hops :: InInt(h.port)
    ensures Collected(ReadHops(Prints(hops), me)) == hops <==> forall h | h in hops :: Readable(h)
  {
    var r := ReadHops(Prints(hops), me);
    forall i | 0 <= i < |hops| ensures r[i].Some? && (r[i].value == hops[i] <==> Readable(hops[i])) {
      ReadPrint(hops[i], me);
    }
    CollectedAll(r);
    SameIffEach(Collected(r), hops);
  }

  lemma SameIffEach(a: seq<Hop>, b: seq<Hop>)
    requires |a| == |b| && forall i | 0 <= i < |b| :: a[i] == b[i] <==> Readable(b[i])
    ensures a == b <==> forall h | h in b :: Readable(h)
  {
    if a == b {
      forall h | h in b ensures Readable(h) {
        var i :| 0 <= i < |b| && b[i] == h;
      }
    }
  }

  /** A printed chain that passes validation is read back as it was, exactly when every hop survives. */
  lemma ChainRoundTrip(hops: seq<Hop>, me: string)
    requires hops != [] && forall h | h in hops :: InInt(h.port)
    requires JumpError(Join(Prints(hops), ','), me).None?
    ensures ParseChain(Join(Prints(hops), ','), me) == hops <==> forall h | h in hops :: Survives(h)
  {
    var prints := Prints(hops);
    var text := Join(prints, ',');
    PrintedChainNotBlank(hops);
    forall i | 0 <= i < |hops| ensures ',' in prints[i] <==> ',' in hops[i].user || ',' in hops[i].host {
      PrintHasComma(hops[i]);
    }
    ReadPrints(hops, me);
    if forall l | l in prints :: ',' !in l {
      SplitOfJoin(prints, ',');
      NoCommaMeansSurvives(hops, prints);
    } else {
      JoinedCount(prints, ',');
      ValidChainIsComplete(text, me);
      CommaMeansLost(hops, prints);
    }
  }

  lemma NoCommaMeansSurvives(hops: seq<Hop>, prints: seq<string>)
    requires |prints| == |hops|
    requires forall i | 0 <= i < |hops| :: ',' in prints[i] <==> ',' in hops[i].user || ',' in hops[i].host
    requires forall l | l in prints :: ',' !in l
    ensures (forall h | h in hops :: Survives(h)) <==> (forall h | h in hops :: Readable(h))
  {
    forall h | h in hops ensures Survives(h) <==> Readable(h) {
      var i :| 0 <= i < |hops| && hops[i] == h;
      assert prints[i] in prints;
    }
  }

  lemma CommaMeansLost(hops: seq<Hop>, prints: seq<string>)
    requires |prints| == |hops|
    requires forall i | 0 <= i < |hops| :: ',' in prints[i] <==> ',' in hops[i].user || ',' in hops[i].host
    requires !forall l | l in prints :: ',' !in l
    ensures !forall h | h in hops :: Survives(h)
  {
    var l :| l in prints && ',' in l;
    var i :| 0 <= i < |prints| && prints[i] == l;
    assert hops[i] in hops && !Survives(hops[i]);
  }

  // ----- A tuber's derived fields -----

  datatype Derived = Derived(target: Hop, sshIdentity: string, jumps: seq<Hop>)

  /** The target as `ssh:` gives it, or what it was when `ssh:` is blank. */
  function Written(ssh: string, prior: Derived, me: string): Parsed {
    var p := ParseSsh(ssh, me);
    if p.Some? then p.value else Parsed(prior.target, false, false)
  }

  /** What an alias makes of a target and the identity. */
  function Aimed(q: Parsed, v: Alias, identity: string, prior: Derived,
                 expand: (string, string, string) -> string): Derived {
    if !Matched(v) then prior.(target := q.hop)
    else
      var hop := Filled(q, v);
      prior.(target := hop,
             sshIdentity :=
               if TrimSpace(identity) == "" && v.identity != "" then expand(v.identity, hop.user, v.hostName)
                            else prior.sshIdentity)
  }

  /** The target and identity that `ssh:` and the alias it names lead to. */
  function Target(ssh: string, identity: string, prior: Derived, cfg: Config, me: string,
                  expand: (string, string, string) -> string): Derived {
    var q := Written(ssh, prior, me);
    Aimed(q, Lookup(cfg, q.hop.host), identity, prior, expand)
  }

  /** The ProxyJump that applies, or "". */
  function ProxyJump(ssh: string, prior: Derived, cfg: Config, me: string): string {
    Lookup(cfg, Written(ssh, prior, me).hop.host).proxyJump
  }

  /** The hops a ProxyJump leads to, or None when it does not resolve or is not valid. */
  function JumpsThrough(pj: string, cfg: Config, me: string): Option<seq<Hop>> {
    var r := Resolved(StepsOf(Split(pj, ','), cfg, me));
    if r.Failed? || JumpError(Join(Prints(r.hops), ','), me).Some? then None
    else Some(ParseChain(Join(Prints(r.hops), ','), me))
  }

  method DeriveJumps(pj: string, cfg: Config, me: string) returns (hops: Option<seq<Hop>>)
    ensures hops == JumpsThrough(pj, cfg, me)
  {
    var resolved, e := ResolveJumpChain(pj, cfg, me);
    if resolved.None? {
      return None;
    }
    var invalid := ValidateJump(resolved.value, me);
    if invalid.Some? {
      return None;
    }
    var chain := ParseJumpChain(resolved.value, me);
    return Some(chain);
  }

  /** What preparing a tuber derives, given what was derived before; None when it fails. */
  function Prepared(ssh: string, jump: string, identity: string, prior: Derived, cfg: Config, me: string,
                    expand: (string, string, string) -> string): Option<Derived> {
    WithJumps(Target(ssh, identity, prior, cfg, me, expand), jump, ProxyJump(ssh, prior, cfg, me), cfg, me)
  }

  /** An explicit `jump:` wins over the alias's ProxyJump; without either the jumps stay as they were. */
  function WithJumps(t: Derived, jump: string, pj: string, cfg: Config, me: string): Option<Derived> {
    if TrimSpace(jump) != "" then Some(t.(jumps := ParseChain(jump, me)))
    else if pj == "" then Some(t)
    else match JumpsThrough(pj, cfg, me)
      case None => None
      case Some(hops) => Some(t.(jumps := hops))
  }

  const NOTHING := Derived(Hop("", "", 0), "", [])

  class Tuber {
    const ssh: string
    const jump: string
    const identity: string
    var user: string
    var host: string
    var port: int
    var sshIdentity: string
    var jumps: seq<Hop>

    constructor (s: string, j: string, i: string)
      ensures ssh == s && jump == j && identity == i && View() == NOTHING
    {
      ssh, jump, identity := s, j, i;
      user, host, port, sshIdentity, jumps := "", "", 0, "", [];
    }

    ghost function View(): Derived
      reads this
    {
      Derived(Hop(user, host, port), sshIdentity, jumps)
    }

    /** resolveTuber: an explicit `jump:` wins over the alias's ProxyJump, whose hops must all be valid. */
    method Resolve(cfg: Config, me: string, expand: (string, string, string) -> string) returns (ok: bool)
      modifies this
      ensures var r := Prepared(ssh, jump, identity, old(View()), cfg, me, expand);
        ok == r.Some? && View() == if ok then r.value else Target(ssh, identity, old(View()), cfg, me, expand)
    {
      var proxyJump := ResolveTarget(cfg, me, expand);
      if TrimSpace(jump) != "" {
        jumps := ParseJumpChain(jump, me);
        return true;
      }
      if proxyJump == "" {
        return true;
      }
      var hops := DeriveJumps(proxyJump, cfg, me);
      if hops.None? {
        return false;
      }
      jumps := hops.value;
      return true;
    }

    /** The first half of resolveTuber: the target, and the alias's ProxyJump. */
    method ResolveTarget(cfg: Config, me: string, expand: (string, string, string) -> string)
      returns (proxyJump: string)
      modifies this`user, this`host, this`port, this`sshIdentity
      ensures View() == Target(ssh, identity, old(View()), cfg, me, expand)
      ensures proxyJump == ProxyJump(ssh, old(View()), cfg, me)
    {
      ghost var prior := View();
      var userExplicit, portExplicit := ParseTarget(me);
      var v := Lookup(cfg, host);
      proxyJump := "";
      if Matched(v) {
        ApplyAlias(v, userExplicit, portExplicit, expand);
        proxyJump := v.proxyJump;
      }
      assert View() == Aimed(Written(ssh, prior, me), v, identity, prior, expand);
    }

    method ParseTarget(me: string) returns (userExplicit: bool, portExplicit: bool)
      modifies this`user, this`host, this`port
      ensures Parsed(Hop(user, host, port), userExplicit, portExplicit) == Written(ssh, old(View()), me)
    {
      var p := ParseSsh(ssh, me);
      userExplicit, portExplicit := false, false;
      if p.Some? {
        user, host, port := p.value.hop.user, p.value.hop.host, p.value.hop.port;
        userExplicit, portExplicit := p.value.userExplicit, p.value.portExplicit;
      }
    }

    method ApplyAlias(v: Alias, userExplicit: bool, portExplicit: bool, expand: (string, string, string) -> string)
      modifies this`user, this`host, this`port, this`sshIdentity
      ensures Hop(user, host, port) == Filled(Parsed(old(Hop(user, host, port)), userExplicit, portExplicit), v)
      ensures sshIdentity ==
              if TrimSpace(identity) == "" && v.identity != "" then expand(v.identity, user, v.hostName)
              else old(sshIdentity)
    {
      if v.hostName != "" {
        host := v.hostName;
      }
      if !userExplicit && v.user != "" {
        user := v.user;
      }
      if !portExplicit && v.port != "" {
        var n := Atoi(v.port);
        if n.Some? {
          port := n.value;
        }
      }
      if TrimSpace(identity) == "" && v.identity != "" {
        sshIdentity := expand(v.identity, user, v.hostName);
      }
    }
  }

  lemma StepPortInRange(tok: string, cfg: Config, me: string)
    ensures var s := StepOf(tok, cfg, me); s.Step? ==> InInt(s.hop.port)
  {
  }

  /** When resolution through an alias's ProxyJump succeeds, each comma-separated token has its own
      resolved hop, in order, and nothing is lost on the way through the printed chain exactly when
      no resolved name holds a comma and no resolved host an '@'. */
  lemma DerivedJumpsAreTheHops(pj: string, cfg: Config, me: string)
    requires var r := Resolved(StepsOf(Split(pj, ','), cfg, me));
      r.Chain? && JumpError(Join(Prints(r.hops), ','), me).None?
    ensures var steps := StepsOf(Split(pj, ','), cfg, me);
      var hops := Resolved(steps).hops;
      && |hops| == |Split(pj, ',')|
      && (forall i | 0 <= i < |hops| :: steps[i].Step? && hops[i] == steps[i].hop)
      && NoAliasTwice(steps)
      && (ParseChain(Join(Prints(hops), ','), me) == hops <==> forall h | h in hops :: Survives(h))
  {
    var steps := StepsOf(Split(pj, ','), cfg, me);
    ResolvesIffNoAliasTwice(steps);
    ResolvedGives(steps);
    var hops := Resolved(steps).hops;
    forall h | h in hops ensures InInt(h.port) {
      var i :| 0 <= i < |hops| && hops[i] == h;
      StepPortInRange(Split(pj, ',')[i], cfg, me);
    }
    ChainRoundTrip(hops, me);
  }

  lemma OneHopIsValid(text: string, me: string)
    requires text != "" && TrimSpace(text) == text && ',' !in text && HopError(text, 1, me).None?
    ensures JumpError(text, me).None?
  {
    SplitPlain(text, ',');
    FirstOfNext([text], 0, me);
  }

  lemma OneHopIsRead(text: string, me: string)
    requires TrimSpace(text) != "" && ',' !in text && ReadHop(text, me).Some?
    ensures ParseChain(text, me) == [ReadHop(text, me).value]
  {
    SplitPlain(text, ',');
    var ps := ReadHops([text], me);
    CollectedNext(ps, 0);
    assert ps[..1] == ps && ps[..0] == [];
  }

  lemma PrintedAloneIsRead(h: Hop, me: string)
    requires Readable(h) && ',' !in h.user && ',' !in h.host && h.host != "" && 1 <= h.port <= 65535
    ensures JumpError(Print(h), me).None? && ParseChain(Print(h), me) == [h]
  {
    var text := Print(h);
    HopRoundTrip(h, me);
    assert HopError(text, 1, me).None?;
    PrintHasComma(h);
    PrintIsTrimmed(h);
    OneHopIsValid(text, me);
    OneHopIsRead(text, me);
  }

  lemma PrintIsTrimmed(h: Hop)
    requires Readable(h)
    ensures Print(h) != "" && TrimSpace(Print(h)) == Print(h)
  {
    PrintedEnds(h);
    TrimNothing(Print(h));
  }

  /** A host that holds an '@' gives its first part away to the user when it is printed. */
  lemma AtMovesTheUser(me: string, x: string, y: string, port: int)
    ensures Print(Hop(me, x + "@" + y, port)) == Print(Hop(me + "@" + x, y, port))
  {
    var at: string := "@";
    assert me + at + (x + at + y) == me + at + x + at + y;
  }

  lemma PlainTokenParses(tok: string, me: string)
    requires tok != "" && TrimSpace(tok) == tok && '@' !in tok && ':' !in tok
    ensures ParseSsh(tok, me) == Some(Parsed(Hop(me, tok, DEFAULT_PORT), false, false))
  {
    assert tok[0..] == tok;
    assert LastIndexOf(tok, '@') == -1 && LastIndexOf(tok, ':') == -1;
  }

  lemma RenamedHop(me: string, tok: string, v: Alias, host: string, cfg: Config)
    requires host != "" && Lookup(cfg, tok) == v && v == Alias(host, "", "", "", "")
    ensures StepFrom(Some(Parsed(Hop(me, tok, DEFAULT_PORT), false, false)), cfg)
      == Step(Hop(me, host, DEFAULT_PORT), Some(tok))
  {
  }

  lemma PlainTokenStep(tok: string, me: string, host: string, cfg: Config)
    requires tok != "" && TrimSpace(tok) == tok && '@' !in tok && ':' !in tok && host != "" && TrimSpace(host) == host
    requires cfg.Some? && cfg.value(tok) == Alias(host, "", "", "", "")
    ensures StepOf(tok, cfg, me) == Step(Hop(me, host, DEFAULT_PORT), Some(tok))
  {
    PlainTokenParses(tok, me);
    RenamedHop(me, tok, Lookup(cfg, tok), host, cfg);
  }

  lemma OneStep(s: Step)
    requires s.Step? && s.alias.Some?
    ensures Resolved([s]) == Chain([s.hop], {s.alias.value})
  {
    assert [s][..0] == [];
    assert Resolved([]) == Chain([], {});
  }

  /** A ProxyJump through an alias whose HostName holds an '@' resolves and passes validation, but
      the dial goes to another host as another user. */
  lemma HostNameWithAtIsLost(tok: string, me: string, x: string, y: string, cfg: Config)
    requires tok != "" && TrimSpace(tok) == tok && '@' !in tok && ':' !in tok && ',' !in tok
    requires ',' !in me && ',' !in x && ',' !in y && '@' !in y && y != "" && (me == "" || !IsSpace(me[0]))
    requires TrimSpace(x + "@" + y) == x + "@" + y
    requires cfg.Some? && cfg.value(tok) == Alias(x + "@" + y, "", "", "", "")
    ensures Resolved(StepsOf(Split(tok, ','), cfg, me)) == Chain([Hop(me, x + "@" + y, DEFAULT_PORT)], {tok})
    ensures JumpsThrough(tok, cfg, me) == Some([Hop(me + "@" + x, y, DEFAULT_PORT)])
  {
    var h := Hop(me, x + "@" + y, DEFAULT_PORT);
    SplitPlain(tok, ',');
    PlainTokenStep(tok, me, x + "@" + y, cfg);
    assert StepsOf([tok], cfg, me) == [Step(h, Some(tok))];
    OneStep(Step(h, Some(tok)));
    assert Prints([h]) == [Print(h)];
    AtMovesTheUser(me, x, y, DEFAULT_PORT);
    PrintedAloneIsRead(Hop(me + "@" + x, y, DEFAULT_PORT), me);
  }

  // ----- Preparing again -----

  lemma AimedAgain(q: Parsed, v: Alias, identity: string, prior: Derived, jumps: seq<Hop>,
                   expand: (string, string, string) -> string)
    ensures var d := Aimed(q, v, identity, prior, expand).(jumps := jumps); Aimed(q, v, identity, d, expand) == d
  {
  }

  lemma WithJumpsAgain(t: Derived, jump: string, pj: string, cfg: Config, me: string)
    requires WithJumps(t, jump, pj, cfg, me).Some?
    ensures var d := WithJumps(t, jump, pj, cfg, me).value;
      d == t.(jumps := d.jumps) && WithJumps(d, jump, pj, cfg, me) == Some(d)
  {
  }

  /** Preparing a prepared tuber changes nothing, as long as its `ssh:` is not blank. */
  lemma PreparingSettles(ssh: string, jump: string, identity: string, prior: Derived, cfg: Config, me: string,
                         expand: (string, string, string) -> string)
    requires TrimSpace(ssh) != "" && Prepared(ssh, jump, identity, prior, cfg, me, expand).Some?
    ensures var d := Prepared(ssh, jump, identity, prior, cfg, me, expand).value;
      Prepared(ssh, jump, identity, d, cfg, me, expand) == Some(d)
  {
    var q := Written(ssh, prior, me);
    var v := Lookup(cfg, q.hop.host);
    var d := Prepared(ssh, jump, identity, prior, cfg, me, expand).value;
    WithJumpsAgain(Target(ssh, identity, prior, cfg, me, expand), jump, v.proxyJump, cfg, me);
    AimedAgain(q, v, identity, prior, d.jumps, expand);
    assert Written(ssh, d, me) == q;
  }

  /** Preparing never clears: an identity or jumps derived before survive unless they are derived anew.
      So preparing an edited tuber agrees with loading it from the file exactly when nothing stale is left. */
  lemma PreparingKeepsStaleValues(ssh: string, jump: string, identity: string, prior: Derived, cfg: Config, me: string,
                                  expand: (string, string, string) -> string)
    requires TrimSpace(ssh) != ""
    ensures var v := Lookup(cfg, Written(ssh, prior, me).hop.host);
      var afresh := Prepared(ssh, jump, identity, NOTHING, cfg, me, expand);
      Prepared(ssh, jump, identity, prior, cfg, me, expand) == afresh <==>
        || (TrimSpace(jump) == "" && v.proxyJump != "" && JumpsThrough(v.proxyJump, cfg, me).None?)
        || ((prior.sshIdentity == "" || (TrimSpace(identity) == "" && v.identity != ""))
            && (prior.jumps == [] || TrimSpace(jump) != "" || v.proxyJump != ""))
  {
    var q := Written(ssh, prior, me);
    assert Written(ssh, NOTHING, me) == q;
    var v := Lookup(cfg, q.hop.host);
    AimedFrom(q, v, identity, prior, expand);
    JumpsFrom(Aimed(q, v, identity, prior, expand), Aimed(q, v, identity, NOTHING, expand), jump, v.proxyJump, cfg, me);
  }

  /** Jumps derived for an alias stay when the alias is gone, where a fresh load has none. */
  lemma OldJumpsStay(ssh: string, prior: Derived, me: string, expand: (string, string, string) -> string)
    requires TrimSpace(ssh) != "" && prior.jumps != []
    ensures var again := Prepared(ssh, "", "", prior, None, me, expand);
      var afresh := Prepared(ssh, "", "", NOTHING, None, me, expand);
      again.Some? && afresh.Some? && again.value.jumps == prior.jumps && afresh.value.jumps == []
  {
    PreparingKeepsStaleValues(ssh, "", "", prior, None, me, expand);
  }

  /** The target is found the same whatever was derived before, and so is a failure. */
  lemma PreparingFindsTarget(ssh: string, jump: string, identity: string, prior: Derived, cfg: Config, me: string,
                             expand: (string, string, string) -> string)
    requires TrimSpace(ssh) != ""
    ensures var a := Prepared(ssh, jump, identity, prior, cfg, me, expand);
      var b := Prepared(ssh, jump, identity, NOTHING, cfg, me, expand);
      (a.None? <==> b.None?) && (a.Some? ==> a.value.target == b.value.target)
  {
    var q := Written(ssh, prior, me);
    assert Written(ssh, NOTHING, me) == q;
    var v := Lookup(cfg, q.hop.host);
    AimedFrom(q, v, identity, prior, expand);
    WithJumpsKeepsTarget(Aimed(q, v, identity, prior, expand), jump, v.proxyJump, cfg, me);
    WithJumpsKeepsTarget(Aimed(q, v, identity, NOTHING, expand), jump, v.proxyJump, cfg, me);
  }

  lemma WithJumpsKeepsTarget(t: Derived, jump: string, pj: string, cfg: Config, me: string)
    ensures var r := WithJumps(t, jump, pj, cfg, me);
      && (r.None? <==> TrimSpace(jump) == "" && pj != "" && JumpsThrough(pj, cfg, me).None?)
      && (r.Some? ==> r.value.target == t.target)
  {
  }

  /** A blank `ssh:` that a catch-all alias fills is resolved further each time it is prepared. */
  lemma BlankTargetMoves(cfg: Config, me: string, expand: (string, string, string) -> string)
    requires cfg.Some? && cfg.value("") == Alias("a", "", "22", "", "")
      && cfg.value("a") == Alias("b", "", "22", "", "")
    ensures var first := Prepared("", "", "", NOTHING, cfg, me, expand);
      && first.Some? && first.value.target.host == "a"
      && var second := Prepared("", "", "", first.value, cfg, me, expand);
      && second.Some? && second.value.target.host == "b"
  {
    TrimNothing("a");
    TrimNothing("b");
    assert Written("", NOTHING, me) == Parsed(NOTHING.target, false, false);
    assert Lookup(cfg, "").hostName == "a" && Lookup(cfg, "").proxyJump == "";
    assert Lookup(cfg, "a").hostName == "b" && Lookup(cfg, "a").proxyJump == "";
  }

  lemma JumpsFrom(a: Derived, b: Derived, jump: string, pj: string, cfg: Config, me: string)
    requires a.target == b.target && b.jumps == []
    ensures WithJumps(a, jump, pj, cfg, me) == WithJumps(b, jump, pj, cfg, me) <==>
      || WithJumps(b, jump, pj, cfg, me).None?
      || (a.sshIdentity == b.sshIdentity && (a.jumps == [] || TrimSpace(jump) != "" || pj != ""))
  {
  }

  lemma AimedFrom(q: Parsed, v: Alias, identity: string, prior: Derived, expand: (string, string, string) -> string)
    ensures var a, b := Aimed(q, v, identity, prior, expand), Aimed(q, v, identity, NOTHING, expand);
      && a.target == b.target && a.jumps == prior.jumps && b.jumps == []
      && (TrimSpace(identity) == "" && v.identity != "" ==> a.sshIdentity == b.sshIdentity)
      && (!(TrimSpace(identity) == "" && v.identity != "") ==>
        a.sshIdentity == prior.sshIdentity && b.sshIdentity == "")
  {
  }
}
