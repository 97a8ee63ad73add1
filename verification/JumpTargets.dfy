/** What an address written in `ssh:`, in `jump:` or in a ProxyJump comes to: what is written wins,
    an ssh_config alias fills the gaps, and defaults fill the rest (internal/config/config.go). */
module JumpTargets {

  import opened JumpChain
  import opened Text
  import opened Wrappers

  /** `[user@]host[:port]`, as a user writes it. */
  datatype Address = Address(user: Option<string>, host: string, port: Option<int>)

  function Or<T>(o: Option<T>, otherwise: T): T { if o.Some? then o.value else otherwise }

  const AT := "@"
  const COLON := ":"

  function UserPart(a: Address): string { if a.user.Some? then a.user.value + AT else "" }

  function PortPart(a: Address): string { if a.port.Some? then COLON + Itoa(a.port.value) else "" }

  function Spell(a: Address): string { UserPart(a) + (a.host + PortPart(a)) }

  /** An address that can be written without ambiguity. */
  predicate Plain(a: Address) {
    && a.host != "" && '@' !in a.host && ':' !in a.host && !IsSpace(a.host[0]) && !IsSpace(a.host[|a.host| - 1])
    && (a.user.Some? ==> a.user.value != "" && !IsSpace(a.user.value[0]))
    && (a.port.Some? ==> InInt(a.port.value))
  }

  lemma SpellEnds(a: Address)
    requires Plain(a)
    ensures Spell(a) != "" && TrimSpace(Spell(a)) == Spell(a)
  {
    var s := Spell(a);
    var rest := a.host + PortPart(a);
    if a.port.Some? {
      NumberHas(a.port.value, ',');
      assert rest[|rest| - 1] == Itoa(a.port.value)[|Itoa(a.port.value)| - 1];
    }
    assert s[|s| - 1] == rest[|rest| - 1];
    assert s[0] == if a.user.Some? then a.user.value[0] else a.host[0];
    TrimNothing(s);
  }

  lemma NoneIs(s: string, c: char)
    requires c !in s
    ensures LastIndexOf(s, c) == -1
  {
  }

  lemma UserSplits(a: Address)
    requires Plain(a)
    ensures var at := LastIndexOf(Spell(a), '@');
      && Spell(a)[at + 1..] == a.host + PortPart(a) && (at >= 0 <==> a.user.Some?)
      && (a.user.Some? ==> Spell(a)[..at] == a.user.value)
  {
    var s, rest := Spell(a), a.host + PortPart(a);
    if a.port.Some? { NumberHas(a.port.value, '@'); }
    assert '@' !in rest;
    if a.user.Some? {
      LastIndexIs(a.user.value, '@', rest);
      assert s == a.user.value + ['@'] + rest;
    } else {
      assert s == rest;
      NoneIs(s, '@');
    }
  }

  lemma NoPortParses(host: string)
    requires ':' !in host
    ensures ParseHostPort(host) == (host, None)
  {
    NoneIs(host, ':');
  }

  lemma PortSplits(a: Address)
    requires Plain(a)
    ensures ParseHostPort(a.host + PortPart(a)) == (a.host, a.port)
  {
    if a.port.Some? {
      HostPortParses(a.host, a.port.value);
      JoinedByColon(a.host, Itoa(a.port.value));
    } else {
      NoPortParses(a.host);
      assert a.host + "" == a.host;
    }
  }

  lemma JoinedByColon(a: string, b: string)
    ensures a + ":" + b == a + (COLON + b)
  {
  }

  lemma PartsRead(s: string, at: int, rest: string, host: string, port: Option<int>, me: string)
    requires s != "" && TrimSpace(s) == s && LastIndexOf(s, '@') == at && s[at + 1..] == rest
    requires ParseHostPort(rest) == (host, port)
    ensures ParseSsh(s, me)
      == Some(Parsed(Hop(if at < 0 then me else s[..at], host, Or(port, 22)), at >= 0, port.Some?))
  {
  }

  /** An address reads as it was written, with the OS user and port 22 where it leaves them out. */
  lemma AddressReads(a: Address, me: string)
    requires Plain(a)
    ensures ParseSsh(Spell(a), me)
      == Some(Parsed(Hop(Or(a.user, me), a.host, Or(a.port, 22)), a.user.Some?, a.port.Some?))
  {
    SpellEnds(a);
    UserSplits(a);
    PortSplits(a);
    PartsRead(Spell(a), LastIndexOf(Spell(a), '@'), a.host + PortPart(a), a.host, a.port, me);
  }

  /** The values an ssh_config gives an alias, blanks trimmed; nothing without one. */
  function Values(cfg: Config, host: string): Alias {
    if cfg.None? then Alias("", "", "", "", "")
    else
      var f := cfg.value(host);
      Alias(hostName := TrimSpace(f.hostName), user := TrimSpace(f.user), port := TrimSpace(f.port),
            identity := TrimSpace(f.identity), proxyJump := TrimSpace(f.proxyJump))
  }

  /** Where an address leads: what is written, else what the alias says, else the default; only the host
      name is the alias's first. */
  function Leads(a: Address, v: Alias, me: string): Hop {
    Hop(Or(a.user, if v.user != "" then v.user else me),
        if v.hostName != "" then v.hostName else a.host,
        Or(a.port, Or(Atoi(v.port), 22)))
  }

  /** The hop of a ProxyJump that an address stands for. */
  lemma HopLeads(a: Address, cfg: Config, me: string)
    requires Plain(a)
    ensures var v := Values(cfg, a.host);
      StepOf(Spell(a), cfg, me) == Step(Leads(a, v, me), if Matched(v) then Some(a.host) else None)
  {
    AddressReads(a, me);
    FilledLeads(a, Values(cfg, a.host), me);
  }

  function AsRead(a: Address, me: string): Parsed {
    Parsed(Hop(Or(a.user, me), a.host, Or(a.port, 22)), a.user.Some?, a.port.Some?)
  }

  lemma FilledLeads(a: Address, v: Alias, me: string)
    ensures (if Matched(v) then Filled(AsRead(a, me), v) else AsRead(a, me).hop) == Leads(a, v, me)
  {
    assert Atoi("") == None;
  }

  lemma AimedLeads(a: Address, v: Alias, identity: string, prior: Derived, me: string,
                   expand: (string, string, string) -> string)
    ensures Aimed(AsRead(a, me), v, identity, prior, expand)
      == prior.(target := Leads(a, v, me),
                sshIdentity := if TrimSpace(identity) == "" && v.identity != ""
                               then expand(v.identity, Leads(a, v, me).user, v.hostName) else prior.sshIdentity)
  {
    FilledLeads(a, v, me);
  }

  lemma PreparedIs(a: Address, jump: string, identity: string, prior: Derived, cfg: Config, me: string,
                   expand: (string, string, string) -> string)
    requires Plain(a)
    ensures var v := Values(cfg, a.host);
      Prepared(Spell(a), jump, identity, prior, cfg, me, expand)
        == WithJumps(Aimed(AsRead(a, me), v, identity, prior, expand), jump, v.proxyJump, cfg, me)
  {
    AddressReads(a, me);
    assert Written(Spell(a), prior, me) == AsRead(a, me);
    assert Lookup(cfg, a.host) == Values(cfg, a.host);
  }

  /** The target and the identity that preparing a tuber derives from its address; it fails only over
      the alias's ProxyJump, which an explicit `jump:` overrides. */
  lemma TargetLeads(a: Address, jump: string, identity: string, prior: Derived, cfg: Config, me: string,
                    expand: (string, string, string) -> string)
    requires Plain(a)
    ensures var v := Values(cfg, a.host);
      var hop := Leads(a, v, me);
      var d := Prepared(Spell(a), jump, identity, prior, cfg, me, expand);
      && (d.None? <==> TrimSpace(jump) == "" && v.proxyJump != "" && JumpsThrough(v.proxyJump, cfg, me).None?)
      && (d.Some? ==>
            && d.value.target == hop
            && d.value.sshIdentity == (if TrimSpace(identity) == "" && v.identity != ""
                                       then expand(v.identity, hop.user, v.hostName) else prior.sshIdentity)
            && d.value.jumps == if TrimSpace(jump) != "" then ParseChain(jump, me)
                                else if v.proxyJump != "" then JumpsThrough(v.proxyJump, cfg, me).value
                                else prior.jumps)
  {
    PreparedIs(a, jump, identity, prior, cfg, me, expand);
    AimedLeads(a, Values(cfg, a.host), identity, prior, me, expand);
  }

  // ----- Chains of addresses -----

  function Spells(xs: seq<Address>): seq<string> { seq(|xs|, i requires 0 <= i < |xs| => Spell(xs[i])) }

  /** The hops of a `jump:`, which goes through no alias. */
  function HopOf(a: Address, me: string): Hop { Hop(Or(a.user, me), a.host, Or(a.port, 22)) }

  predicate PlainInChain(a: Address) { Plain(a) && ',' !in a.host && (a.user.Some? ==> ',' !in a.user.value) }

  lemma SpellHasNoComma(a: Address)
    requires PlainInChain(a)
    ensures ',' !in Spell(a)
  {
    if a.port.Some? { NumberHas(a.port.value, ','); }
  }

  lemma SpelledChain(xs: seq<Address>)
    requires xs != [] && forall a | a in xs :: PlainInChain(a)
    ensures Split(Join(Spells(xs), ','), ',') == Spells(xs)
  {
    forall i | 0 <= i < |xs| ensures ',' !in Spells(xs)[i] {
      SpellHasNoComma(xs[i]);
    }
    SplitOfJoin(Spells(xs), ',');
  }

  lemma SpelledChainEnds(xs: seq<Address>)
    requires xs != [] && forall a | a in xs :: PlainInChain(a)
    ensures TrimSpace(Join(Spells(xs), ',')) != ""
  {
    var last := xs[|xs| - 1];
    assert PlainInChain(last) by { assert last in xs; }
    SpellEnds(last);
    JoinEndsLike(Spells(xs), Spell(last));
    TrimKeepsLast(Join(Spells(xs), ','));
  }

  /** A `jump:` of addresses is read as those hops, in order. */
  lemma ChainReads(xs: seq<Address>, me: string)
    requires xs != [] && forall a | a in xs :: PlainInChain(a)
    ensures var hops := ParseChain(Join(Spells(xs), ','), me);
      |hops| == |xs| && forall i | 0 <= i < |xs| :: hops[i] == HopOf(xs[i], me)
  {
    SpelledChain(xs);
    SpelledChainEnds(xs);
    var ps := ReadHops(Spells(xs), me);
    forall i | 0 <= i < |xs| ensures ps[i] == Some(HopOf(xs[i], me)) {
      assert PlainInChain(xs[i]) by { assert xs[i] in xs; }
      AddressReads(xs[i], me);
    }
    CollectedAll(ps);
  }

  /** A token that names a host and a usable port. */
  predicate Usable(tok: string, me: string) {
    var p := ParseSsh(tok, me);
    p.Some? && p.value.hop.host != "" && 1 <= p.value.hop.port <= 65535
  }

  predicate EachUsable(toks: seq<string>, me: string) { forall i | 0 <= i < |toks| :: Usable(toks[i], me) }

  /** What is wrong with hop number n, when something is. */
  function Complaint(tok: string, n: nat, me: string): Error {
    var p := ParseSsh(tok, me);
    if p.None? then EmptyHop(n) else if p.value.hop.host == "" then NoHost(n) else BadPort(n)
  }

  function Judged(tok: string, n: nat, me: string): Option<Error> {
    if Usable(tok, me) then None else Some(Complaint(tok, n, me))
  }

  lemma HopErrorIs(tok: string, n: nat, me: string)
    ensures HopError(tok, n, me) == Judged(tok, n, me)
  {
  }

  lemma ProblemAt(toks: seq<string>, i: nat, me: string)
    requires i < |toks|
    ensures |Problems(toks, me)| == |toks| && Problems(toks, me)[i] == Judged(toks[i], i + 1, me)
  {
    HopErrorIs(toks[i], i + 1, me);
  }

  /** Validation accepts a chain exactly if it is blank or every token between its commas names a host
      and a port from 1 to 65535. */
  lemma ValidIff(text: string, me: string)
    ensures JumpError(text, me).None? <==> TrimSpace(text) == "" || EachUsable(Split(TrimSpace(text), ','), me)
  {
    var toks := Split(TrimSpace(text), ',');
    var es := Problems(toks, me);
    AllUsable(toks, me, es);
    if TrimSpace(text) != "" {
      assert JumpError(text, me) == FirstOf(es, 0);
    }
  }

  lemma AllUsable(toks: seq<string>, me: string, es: seq<Option<Error>>)
    requires es == Problems(toks, me)
    ensures FirstOf(es, 0).None? <==> EachUsable(toks, me)
  {
    AcceptedIffAllFine(es, 0);
    forall i | 0 <= i < |toks| ensures es[i].None? <==> Usable(toks[i], me) {
      ProblemAt(toks, i, me);
    }
    if i :| 0 <= i < |es| && es[i].Some? {
      assert !Usable(toks[i], me);
    }
  }

  /** What it reports is about the first token that is not usable, and says what is wrong with it. */
  lemma ErrorIsTheFirst(text: string, me: string) returns (n: nat)
    requires JumpError(text, me).Some?
    ensures var toks := Split(TrimSpace(text), ',');
      && n < |toks| && !Usable(toks[n], me) && (forall i | 0 <= i < n :: Usable(toks[i], me))
      && JumpError(text, me).value == Complaint(toks[n], n + 1, me)
  {
    n := FirstComplaint(Split(TrimSpace(text), ','), me, Problems(Split(TrimSpace(text), ','), me));
  }

  lemma FirstComplaint(toks: seq<string>, me: string, es: seq<Option<Error>>) returns (n: nat)
    requires es == Problems(toks, me) && FirstOf(es, 0).Some?
    ensures n < |toks| && !Usable(toks[n], me) && (forall i | 0 <= i < n :: Usable(toks[i], me))
    ensures FirstOf(es, 0).value == Complaint(toks[n], n + 1, me)
  {
    n := FirstBad(es, 0);
    ProblemAt(toks, n, me);
    forall i | 0 <= i < n ensures Usable(toks[i], me) {
      ProblemAt(toks, i, me);
    }
  }

  lemma {:induction false} FirstBad(es: seq<Option<Error>>, k: nat) returns (n: nat)
    requires k <= |es| && FirstOf(es, k).Some? && forall i | 0 <= i < k :: es[i].None?
    ensures n < |es| && es[n] == FirstOf(es, k) && es[n].Some? && forall i | 0 <= i < n :: es[i].None?
    decreases |es| - k
  {
    if es[k].Some? { n := k; } else { n := FirstBad(es, k + 1); }
  }

  /** A chain of addresses is accepted exactly if every port written in it is from 1 to 65535. */
  lemma AddressChainIsValidIff(xs: seq<Address>, me: string)
    requires xs != [] && forall a | a in xs :: PlainInChain(a)
    ensures JumpError(Join(Spells(xs), ','), me).None? <==> forall a | a in xs :: PortInRange(a)
  {
    SpelledChainTrimmed(xs);
    SpelledChain(xs);
    ValidIff(Join(Spells(xs), ','), me);
    AllUsableIff(xs, me);
  }

  predicate PortInRange(a: Address) { a.port.Some? ==> 1 <= a.port.value <= 65535 }

  lemma UsableAddress(a: Address, me: string)
    requires Plain(a)
    ensures Usable(Spell(a), me) <==> PortInRange(a)
  {
    AddressReads(a, me);
  }

  lemma AllUsableIff(xs: seq<Address>, me: string)
    requires forall a | a in xs :: PlainInChain(a)
    ensures EachUsable(Spells(xs), me) <==> forall a | a in xs :: PortInRange(a)
  {
    forall i | 0 <= i < |xs| ensures Usable(Spells(xs)[i], me) <==> PortInRange(xs[i]) {
      assert PlainInChain(xs[i]) by { assert xs[i] in xs; }
      UsableAddress(xs[i], me);
    }
    if a :| a in xs && !PortInRange(a) {
      var i :| 0 <= i < |xs| && xs[i] == a;
      assert !Usable(Spells(xs)[i], me);
    } else {
      forall i | 0 <= i < |xs| ensures Usable(Spells(xs)[i], me) {
        assert xs[i] in xs;
      }
    }
  }

  lemma SpelledChainTrimmed(xs: seq<Address>)
    requires xs != [] && forall a | a in xs :: PlainInChain(a)
    ensures TrimSpace(Join(Spells(xs), ',')) == Join(Spells(xs), ',') != ""
  {
    var first, last := xs[0], xs[|xs| - 1];
    assert PlainInChain(first) && PlainInChain(last) by { assert first in xs && last in xs; }
    SpellEnds(first);
    SpellEnds(last);
    JoinEndsLike(Spells(xs), Spell(last));
    JoinStartsLike(Spells(xs));
    TrimNothing(Join(Spells(xs), ','));
  }

  lemma {:induction false} JoinStartsLike(ls: seq<string>)
    requires ls != [] && ls[0] != ""
    ensures Join(ls, ',') != "" && Join(ls, ',')[0] == ls[0][0]
    decreases |ls|
  {
    if |ls| > 1 { JoinStartsLike(ls[..|ls| - 1]); }
  }
}
