/** Password authentication at dial level (internal/forward/password.go, dialSSH in ssh.go and
    the password sink of tuber.go).  The servers, the network and the password provider are a
    script: whatever they do, over any number of rounds. */
module PasswordDial {
  import opened DialChain
  import opened Wrappers

  /** One dial as the world decides it.  `text` is what varies in the message of a failure: the
      methods sent, when authentication failed; else all of it. */
  datatype Attempt = Attempt(callbackOk: bool, outcomes: seq<Outcome>, text: string)

  datatype DialResult = Up | Down(why: Failure, text: string)

  /** The text from the first occurrence of sub on, if there is one. */
  function From(s: string, sub: string): Option<string> {
    if |s| < |sub| then None
    else if s[..|sub|] == sub then Some(s)
    else if s == [] then None
    else From(s[1..], sub)
  }

  predicate Contains(s: string, sub: string) { From(s, sub).Some? }

  const UNABLE := "unable to authenticate"
  const NO_METHODS := "no supported methods remain"
  const ATTEMPTED := "attempted methods ["
  const BEFORE := "auth failed: ssh: handshake failed: ssh: "
  const INTRO := BEFORE + UNABLE + ","
  const TAIL := "], " + NO_METHODS
  const WORD := "password"

  predicate IsAuthFailed(msg: string) { Contains(msg, UNABLE) || Contains(msg, NO_METHODS) }

  predicate PasswordAuthAvailable(msg: string) {
    match From(msg, ATTEMPTED)
    case Some(rest) => Contains(rest, WORD)
    case None => true
  }

  /** What the SSH library says of a failed authentication. */
  function AuthMessage(methods: string): string {
    INTRO + (" " + (ATTEMPTED + (methods + TAIL)))
  }

  predicate RefusedAuth(f: Failure) { f.AtHop? && f.what.AuthRejected? }

  function ResultOf(a: Attempt): DialResult {
    match FailureOf(a.callbackOk, a.outcomes)
    case None => Up
    case Some(f) => Down(f, a.text)
  }

  /** The message of a failed dial. */
  function Msg(d: DialResult): string
    requires d.Down?
  {
    if RefusedAuth(d.why) then AuthMessage(d.text) else d.text
  }

  /** Some hop's server accepted none of the methods it was sent. */
  predicate Refused(d: DialResult) { d.Down? && RefusedAuth(d.why) }

  /** What the code takes for that: it goes by the message, and a server words some of those itself, as
      when it disconnects before its host key has been looked at. */
  predicate TakenForRefusal(d: DialResult) { d.Down? && (Refused(d) || IsAuthFailed(d.text)) }

  /** What the code takes for a refused password that is worth another try. */
  predicate TakenForWrongPassword(d: DialResult) {
    && d.Down?
    && if Refused(d) then Contains(d.text, WORD) else IsAuthFailed(d.text) && PasswordAuthAvailable(d.text)
  }

  /** One outcome per hop, and a text for any other failure that such failures can have. */
  predicate Possible(a: Attempt, jumps: seq<Hop>, says: string -> bool) {
    && |a.outcomes| == |jumps| + 1
    && (ResultOf(a).Down? && !Refused(ResultOf(a)) ==> says(a.text))
  }

  lemma {:induction false} ContainsMiddle(a: string, sub: string, b: string)
    requires sub != []
    ensures Contains(a + sub + b, sub)
    decreases |a|
  {
    var s := a + sub + b;
    if a == [] {
      assert s[..|sub|] == sub;
    } else if s[..|sub|] != sub {
      assert s[1..] == a[1..] + sub + b;
      ContainsMiddle(a[1..], sub, b);
    }
  }

  lemma ContainsInside(a: string, sub: string, b: string, rest: string)
    requires sub != []
    ensures Contains(a + sub + b + rest, sub)
  {
    ContainsMiddle(a, sub, b + rest);
    assert a + sub + b + rest == a + sub + (b + rest);
  }

  /** A refused authentication is recognised by its message, and so is any failure worded like one. */
  lemma RecognisedByText(d: DialResult)
    requires d.Down?
    ensures IsAuthFailed(Msg(d)) <==> TakenForRefusal(d)
  {
    if Refused(d) {
      ContainsInside(BEFORE, UNABLE, ",", " " + (ATTEMPTED + (d.text + TAIL)));
    }
  }

  lemma {:induction false} ContainsAfter(a: string, s: string, sub: string)
    requires Contains(s, sub)
    ensures Contains(a + s, sub)
    decreases |a|
  {
    if a == [] {
      assert a + s == s;
    } else {
      assert (a + s)[1..] == a[1..] + s;
      ContainsAfter(a[1..], s, sub);
    }
  }

  /** The words that count as a refusal, wherever they stand in a message. */
  lemma RefusalWords(before: string, after: string)
    ensures IsAuthFailed(before + "unable to authenticate" + after)
    ensures IsAuthFailed(before + "no supported methods remain" + after)
  {
    ContainsMiddle(before, UNABLE, after);
    ContainsMiddle(before, NO_METHODS, after);
  }

  /** Whatever the library puts in front of a server's own words, they are read for a refusal if they
      are worded like one. */
  lemma WordsAreRead(before: string, words: string)
    requires IsAuthFailed(words)
    ensures IsAuthFailed(before + words)
  {
    if Contains(words, UNABLE) {
      ContainsAfter(before, words, UNABLE);
    } else {
      ContainsAfter(before, words, NO_METHODS);
    }
  }

  lemma {:induction false} MissingChar(s: string, sub: string, c: char)
    requires c in sub && c !in s
    ensures !Contains(s, sub)
    decreases |s|
  {
    if |s| >= |sub| {
      assert s[..|sub|] != sub;
      MissingChar(s[1..], sub, c);
    }
  }

  /** sub cannot begin in p: it would have to reach over p's last character or lie inside p. */
  lemma {:induction false} SkipPrefix(p: string, s: string, sub: string, c: char)
    requires p != [] && p[|p| - 1] !in sub && c in sub && c !in p
    ensures From(p + s, sub) == From(s, sub)
    decreases |p|
  {
    var all := p + s;
    if |all| < |sub| {
    } else {
      if |sub| >= |p| {
        assert all[..|sub|][|p| - 1] == p[|p| - 1];
      } else {
        assert all[..|sub|] == p[..|sub|];
      }
      assert all[..|sub|] != sub;
      if |p| == 1 {
        assert all[1..] == s;
      } else {
        assert all[1..] == p[1..] + s;
        SkipPrefix(p[1..], s, sub, c);
      }
    }
  }

  lemma {:induction false} SkipSuffix(s: string, tail: string, sub: string, c: char)
    requires tail != [] && tail[0] !in sub && c in sub && c !in tail
    ensures Contains(s + tail, sub) <==> Contains(s, sub)
    decreases |s|
  {
    var all := s + tail;
    if s == [] {
      assert all == tail;
      MissingChar(tail, sub, c);
    } else {
      if |s| < |sub| <= |all| {
        assert all[..|sub|][|s|] == tail[0];
      } else if |sub| <= |s| {
        assert all[..|sub|] == s[..|sub|];
      }
      assert all[1..] == s[1..] + tail;
      SkipSuffix(s[1..], tail, sub, c);
    }
  }

  /** Scanning a message put together like AuthMessage finds the list of methods, and in it the
      word looked for or none. */
  lemma ScanFinds(p: string, list: string, methods: string, tail: string, word: string, c: char, d: char)
    requires p != [] && p[|p| - 1] !in list && c in list && c !in p
    requires list != [] && list[0] != ' ' && list[|list| - 1] !in word
    requires d in word && d !in list && tail != [] && tail[0] !in word && d !in tail
    ensures var rest := From(p + (" " + (list + (methods + tail))), list);
      rest.Some? && (Contains(rest.value, word) <==> Contains(methods, word))
  {
    var rest := list + (methods + tail);
    SkipPrefix(p, " " + rest, list, c);
    assert (" " + rest)[..|list|][0] == ' ' && (" " + rest)[1..] == rest;
    assert rest[..|list|] == list;
    SkipPrefix(list, methods + tail, word, d);
    SkipSuffix(methods, tail, word, d);
  }

  lemma NoBracketBefore()
    ensures '[' !in INTRO && INTRO[|INTRO| - 1] == ','
  {
    assert '[' !in BEFORE && '[' !in UNABLE;
  }

  lemma NoWordAround()
    ensures 'w' in WORD && 'w' !in ATTEMPTED && 'w' !in TAIL && TAIL[0] == ']' && ']' !in WORD && '[' !in WORD
  {
    assert WORD[4] == 'w';
  }

  lemma ListStarts()
    ensures ATTEMPTED[0] == 'a' && ',' !in ATTEMPTED && ATTEMPTED[|ATTEMPTED| - 1] == '['
  {
  }

  /** Among the authentication failures the text tells apart those where a password was sent. */
  lemma RetryIffPasswordSent(methods: string)
    ensures PasswordAuthAvailable(AuthMessage(methods)) <==> Contains(methods, "password")
  {
    NoBracketBefore();
    NoWordAround();
    ListStarts();
    ScanFinds(INTRO, ATTEMPTED, methods, TAIL, WORD, '[', 'w');
  }

  /** Without a list of methods another try is thought worth while, whatever else the message says. */
  lemma NoListMeansRetry(msg: string)
    requires !Contains(msg, "attempted methods [")
    ensures PasswordAuthAvailable(msg)
  {
  }

  lemma WrongPasswordByText(d: DialResult)
    requires d.Down?
    ensures IsAuthFailed(Msg(d)) && PasswordAuthAvailable(Msg(d)) <==> TakenForWrongPassword(d)
  {
    RecognisedByText(d);
    RetryIffPasswordSent(d.text);
  }

  datatype Event =
    | Dial(intermed: seq<Method>, final: seq<Method>, result: DialResult)
    | Prompt                                // the sink is told that the account needs a password
    | Dismiss                               // the sink is told that it no longer does
    | Forget                                // the provider is told to delete the password

  /** One round of the password loop: whether the context has ended, what Get and Wait give,
      whether it has ended after a failed Wait, and how the dial goes. */
  datatype Round = Round(ended: bool, cached: Option<string>, waited: Option<string>, endedAfter: bool, dial: Attempt)

  datatype Verdict =
    | Connected
    | Cancelled
    | NoPassword
    | NotOffered
    | DialFailed(why: Failure)
    | NeedsKey
    | NoProvider
    | NoMethod
    | StillTrying                           // the script ended inside the loop

  datatype Trace = Trace(events: seq<Event>, verdict: Verdict)

  function After(es: seq<Event>, t: Trace): Trace { Trace(es + t.events, t.verdict) }

  function PromptIfMissing(r: Round): seq<Event> { if r.cached.None? then [Prompt] else [] }

  function PasswordOf(r: Round): Option<string> { if r.cached.Some? then r.cached else r.waited }

  /** One round: what happens in it, and the verdict if the loop ends there. */
  function OneRound(keys: seq<Method>, r: Round): (seq<Event>, Option<Verdict>) {
    if r.ended then ([], Some(Cancelled))
    else if PasswordOf(r).None? then
      (PromptIfMissing(r), Some(if r.endedAfter then Cancelled else NoPassword))
    else
      var tried := PromptIfMissing(r) + [Dial(keys, [Password(PasswordOf(r).value)], ResultOf(r.dial))];
      match ResultOf(r.dial)
      case Up => (tried + [Dismiss], Some(Connected))
      case Down(why, _) =>
        var msg := Msg(ResultOf(r.dial));
        if !IsAuthFailed(msg) then (tried, Some(DialFailed(why)))
        else if !PasswordAuthAvailable(msg) then (tried, Some(NotOffered))
        else (tried + [Forget], None)
  }

  /** The password loop. */
  function Loop(keys: seq<Method>, rounds: seq<Round>): Trace
    decreases |rounds|
  {
    if rounds == [] then Trace([], StillTrying)
    else
      var (es, v) := OneRound(keys, rounds[0]);
      if v.Some? then Trace(es, v.value) else After(es, Loop(keys, rounds[1..]))
  }

  /** What the tuber and the daemon are set up with. */
  datatype Setup = Setup(passwordAuth: bool, provider: bool, keys: seq<Method>, jumps: seq<Hop>, target: Hop)

  /** probeBeforePassword: what it does, and whether it decides the dial. */
  function Probe(c: Setup, probe: Attempt): (seq<Event>, Option<Verdict>) {
    if c.keys == [] && c.jumps != [] then ([], Some(NeedsKey))
    else
      ([Dial(c.keys, c.keys, ResultOf(probe))],
       match ResultOf(probe)
       case Up => Some(Connected)
       case Down(why, _) => if IsAuthFailed(Msg(ResultOf(probe))) then None else Some(DialFailed(why)))
  }

  function DialWithPrompt(c: Setup, probe: Attempt, rounds: seq<Round>): Trace {
    var (es, verdict) := Probe(c, probe);
    if verdict.Some? then Trace(es, verdict.value)
    else if !c.provider then Trace(es, NoProvider)
    else After(es, Loop(c.keys, rounds))
  }

  /** dialSSH: with password_auth off there is one key-only dial. */
  function DialSSH(c: Setup, probe: Attempt, rounds: seq<Round>): Trace {
    if c.passwordAuth then DialWithPrompt(c, probe, rounds)
    else if c.keys == [] then Trace([], NoMethod)
    else
      Trace([Dial(c.keys, c.keys, ResultOf(probe))],
            match ResultOf(probe) case Up => Connected case Down(why, _) => DialFailed(why))
  }

  /** Every dial has an outcome per hop. */
  predicate Sized(c: Setup, probe: Attempt, rounds: seq<Round>) {
    |probe.outcomes| == |c.jumps| + 1 && forall r <- rounds :: |r.dial.outcomes| == |c.jumps| + 1
  }

  /** Any script of servers, network and user; `says` are the texts a failure can have that is no
      refused authentication. */
  predicate PossibleScript(c: Setup, says: string -> bool, probe: Attempt, rounds: seq<Round>) {
    Possible(probe, c.jumps, says) && forall r <- rounds :: Possible(r.dial, c.jumps, says)
  }

  // ----- The code, over the network -----

  predicate OffersPassword(ms: seq<Method>) { exists m | m in ms :: m.Password? }

  /** Since the network had n0 clients, k0 connections and o0 handshakes: all that was opened is
      closed again but for the last m of each, and only the target was offered a password. */
  ghost predicate Tidy(net: Net, n0: nat, k0: nat, o0: nat, m: nat, target: Hop)
    reads net
  {
    && n0 + m <= |net.clients| && k0 + m <= net.conns && o0 <= |net.offers|
    && (forall c | n0 <= c < |net.clients| - m :: c in net.closed)
    && (forall k | k0 <= k < net.conns - m :: k in net.connsClosed)
    && (forall i | o0 <= i < |net.offers| :: OffersPassword(net.offers[i].1) ==> net.offers[i].0 == target)
  }

  lemma {:induction false} OfferedPasswords(c: Setup, final: seq<Method>, k: nat)
    requires !OffersPassword(c.keys) && k <= |c.jumps| + 1
    ensures forall o <- Offered(c.jumps, c.target, c.keys, final, k) :: OffersPassword(o.1) ==> o.0 == c.target
    decreases k
  {
    if k != 0 { OfferedPasswords(c, final, k - 1); }
  }

  method RunDial(net: Net, c: Setup, final: seq<Method>, a: Attempt, ghost n0: nat, ghost k0: nat, ghost o0: nat)
    returns (r: DialResult)
    requires net.Valid() && !OffersPassword(c.keys) && |a.outcomes| == |c.jumps| + 1
    requires Tidy(net, n0, k0, o0, 0, c.target)
    modifies net
    ensures net.Valid() && r == ResultOf(a)
    ensures Tidy(net, n0, k0, o0, if r.Up? then |c.jumps| + 1 else 0, c.target)
  {
    var d: Result;
    ghost var reached: nat;
    d, reached := net.DialConn(c.jumps, c.target, c.keys, final, a.callbackOk, a.outcomes);
    OfferedPasswords(c, final, reached);
    match d
    case Dialed(_) => r := Up;
    case Failed(why) => r := Down(why, a.text);
  }

  method RunRound(net: Net, c: Setup, r: Round, ghost n0: nat, ghost k0: nat, ghost o0: nat)
    returns (events: seq<Event>, verdict: Option<Verdict>)
    requires net.Valid() && !OffersPassword(c.keys) && |r.dial.outcomes| == |c.jumps| + 1
    requires Tidy(net, n0, k0, o0, 0, c.target)
    modifies net
    ensures net.Valid() && (events, verdict) == OneRound(c.keys, r)
    ensures Tidy(net, n0, k0, o0, if verdict == Some(Connected) then |c.jumps| + 1 else 0, c.target)
  {
    events := [];
    if r.ended {
      return events, Some(Cancelled);
    }
    var pw := r.cached;
    if pw.None? {
      events := [Prompt];
      pw := r.waited;
      if pw.None? {
        return events, Some(if r.endedAfter then Cancelled else NoPassword);
      }
    }
    var d := RunDial(net, c, [Password(pw.value)], r.dial, n0, k0, o0);
    events := events + [Dial(c.keys, [Password(pw.value)], d)];
    if d.Up? {
      return events + [Dismiss], Some(Connected);
    }
    if !IsAuthFailed(Msg(d)) {
      return events, Some(DialFailed(d.why));
    }
    if !PasswordAuthAvailable(Msg(d)) {
      return events, Some(NotOffered);
    }
    return events + [Forget], None;
  }

  lemma AfterAfter(a: seq<Event>, b: seq<Event>, t: Trace)
    ensures After(a, After(b, t)) == After(a + b, t)
  {
    assert a + (b + t.events) == a + b + t.events;
  }

  method RunLoop(net: Net, c: Setup, rounds: seq<Round>, ghost n0: nat, ghost k0: nat, ghost o0: nat)
    returns (t: Trace)
    requires net.Valid() && !OffersPassword(c.keys) && forall r <- rounds :: |r.dial.outcomes| == |c.jumps| + 1
    requires Tidy(net, n0, k0, o0, 0, c.target)
    modifies net
    ensures net.Valid() && t == Loop(c.keys, rounds)
    ensures Tidy(net, n0, k0, o0, if t.verdict.Connected? then |c.jumps| + 1 else 0, c.target)
  {
    var events: seq<Event> := [];
    var i := 0;
    while i < |rounds|
      invariant 0 <= i <= |rounds| && net.Valid() && Tidy(net, n0, k0, o0, 0, c.target)
      invariant Loop(c.keys, rounds) == After(events, Loop(c.keys, rounds[i..]))
    {
      var es, verdict := RunRound(net, c, rounds[i], n0, k0, o0);
      assert rounds[i..][0] == rounds[i] && rounds[i..][1..] == rounds[i + 1..];
      if verdict.Some? {
        return Trace(events + es, verdict.value);
      }
      AfterAfter(events, es, Loop(c.keys, rounds[i + 1..]));
      events := events + es;
      i := i + 1;
    }
    return Trace(events, StillTrying);
  }

  /** dialSSH as a whole: its events are those of the specification, and whatever the servers, the
      network and the user do, all it opened is closed again but for the chain it returns, and no
      handshake but the target's offers a password. */
  method RunDialSSH(net: Net, c: Setup, probe: Attempt, rounds: seq<Round>) returns (t: Trace)
    requires net.Valid() && !OffersPassword(c.keys) && Sized(c, probe, rounds)
    modifies net
    ensures net.Valid() && t == DialSSH(c, probe, rounds)
    ensures Tidy(net, |old(net.clients)|, old(net.conns), |old(net.offers)|,
                 if t.verdict.Connected? then |c.jumps| + 1 else 0, c.target)
  {
    ghost var n0, k0, o0 := |net.clients|, net.conns, |net.offers|;
    if !c.passwordAuth && c.keys == [] {
      return Trace([], NoMethod);
    }
    if c.passwordAuth && c.keys == [] && c.jumps != [] {
      return Trace([], NeedsKey);
    }
    var d := RunDial(net, c, c.keys, probe, n0, k0, o0);
    var first := [Dial(c.keys, c.keys, d)];
    if d.Up? {
      return Trace(first, Connected);
    }
    if !c.passwordAuth || !IsAuthFailed(Msg(d)) {
      return Trace(first, DialFailed(d.why));
    }
    if !c.provider {
      return Trace(first, NoProvider);
    }
    t := RunLoop(net, c, rounds, n0, k0, o0);
    t := After(first, t);
  }

  // ----- When there is a prompt -----

  predicate Prompts(t: Trace) { Prompt in t.events }

  /** The round's password is taken for wrong, and the loop goes on. */
  predicate GoesOn(r: Round) { !r.ended && PasswordOf(r).Some? && TakenForWrongPassword(ResultOf(r.dial)) }

  lemma GoesOnIff(keys: seq<Method>, r: Round)
    ensures OneRound(keys, r).1.None? <==> GoesOn(r)
  {
    if ResultOf(r.dial).Down? { WrongPasswordByText(ResultOf(r.dial)); }
  }

  /** The loop reaches round k, and neither the cache nor the keyring has the password then. */
  predicate AsksAt(rounds: seq<Round>, k: nat)
    requires k < |rounds|
  {
    (forall i | 0 <= i < k :: GoesOn(rounds[i])) && !rounds[k].ended && rounds[k].cached.None?
  }

  lemma AsksLater(rounds: seq<Round>, k: nat)
    requires 0 < k < |rounds|
    ensures AsksAt(rounds, k) <==> GoesOn(rounds[0]) && AsksAt(rounds[1..], k - 1)
  {
    assert forall i | 0 <= i < k - 1 :: rounds[1..][i] == rounds[i + 1];
    if GoesOn(rounds[0]) && AsksAt(rounds[1..], k - 1) {
      forall i | 0 <= i < k ensures GoesOn(rounds[i]) {
        assert i > 0 ==> GoesOn(rounds[1..][i - 1]);
      }
    }
  }

  lemma {:induction false} LoopAsksIff(keys: seq<Method>, rounds: seq<Round>)
    ensures Prompts(Loop(keys, rounds)) <==> exists k: nat | k < |rounds| :: AsksAt(rounds, k)
    decreases |rounds|
  {
    if rounds != [] {
      var r, rest := rounds[0], rounds[1..];
      LoopAsksIff(keys, rest);
      GoesOnIff(keys, r);
      assert Prompt in OneRound(keys, r).0 <==> AsksAt(rounds, 0);
      forall k: nat | 0 < k < |rounds| ensures AsksAt(rounds, k) <==> GoesOn(r) && AsksAt(rest, k - 1) {
        AsksLater(rounds, k);
      }
      if GoesOn(r) {
        if k: nat :| k < |rest| && AsksAt(rest, k) {
          assert AsksAt(rounds, k + 1);
        }
      }
    }
  }

  /** The dials come to the password loop: password auth is on and has a provider, the key dial was made
      and ended in what is taken for a refusal of the keys. */
  predicate EntersLoop(c: Setup, probe: Attempt) {
    c.passwordAuth && c.provider && (c.keys != [] || c.jumps == []) && TakenForRefusal(ResultOf(probe))
  }

  /** There is a prompt exactly if the dials come to the loop and the loop to a round without a known
      password.  So a working key never leads to one. */
  lemma PromptsIff(c: Setup, probe: Attempt, rounds: seq<Round>)
    ensures Prompts(DialSSH(c, probe, rounds)) <==>
      EntersLoop(c, probe) && exists k: nat | k < |rounds| :: AsksAt(rounds, k)
  {
    LoopAsksIff(c.keys, rounds);
    if ResultOf(probe).Down? { RecognisedByText(ResultOf(probe)); }
  }

  // ----- Whether the target was trusted then -----

  /** The target itself refused the methods, having shown a host key that was accepted. */
  predicate RefusedByTarget(d: DialResult, jumps: seq<Hop>) { d.Down? && d.why == AtHop(|jumps|, AuthRejected) }

  predicate TargetRefused(e: Event, jumps: seq<Hop>) { e.Dial? && RefusedByTarget(e.result, jumps) }

  /** Each prompt comes when the last dial got through to the target and its host-key check;
      `trust` is whether that is so at the start. */
  predicate TrustedPrompts(trust: bool, es: seq<Event>, jumps: seq<Hop>)
    decreases |es|
  {
    es == []
    || ((es[0].Prompt? ==> trust)
        && TrustedPrompts(if es[0].Dial? then TargetRefused(es[0], jumps) else trust, es[1..], jumps))
  }

  /** The dial before the loop's k-th round ended on a trusted target. */
  predicate TrustedBefore(trust: bool, jumps: seq<Hop>, rounds: seq<Round>, k: nat)
    requires k < |rounds|
  {
    if k == 0 then trust else RefusedByTarget(ResultOf(rounds[k - 1].dial), jumps)
  }

  ghost predicate AsksOnTrust(trust: bool, jumps: seq<Hop>, rounds: seq<Round>) {
    forall k: nat | k < |rounds| && AsksAt(rounds, k) :: TrustedBefore(trust, jumps, rounds, k)
  }

  lemma AsksOnTrustNext(trust: bool, jumps: seq<Hop>, rounds: seq<Round>)
    requires rounds != []
    ensures AsksOnTrust(trust, jumps, rounds) <==>
      && (AsksAt(rounds, 0) ==> trust)
      && (GoesOn(rounds[0]) ==> AsksOnTrust(RefusedByTarget(ResultOf(rounds[0].dial), jumps), jumps, rounds[1..]))
  {
    var rest, t := rounds[1..], RefusedByTarget(ResultOf(rounds[0].dial), jumps);
    forall k: nat | 0 < k < |rounds|
      ensures AsksAt(rounds, k) <==> GoesOn(rounds[0]) && AsksAt(rest, k - 1)
      ensures TrustedBefore(trust, jumps, rounds, k) <==> TrustedBefore(t, jumps, rest, k - 1)
    {
      AsksLater(rounds, k);
    }
    if AsksOnTrust(trust, jumps, rounds) && GoesOn(rounds[0]) {
      forall k: nat | k < |rest| && AsksAt(rest, k) ensures TrustedBefore(t, jumps, rest, k) {
        assert AsksAt(rounds, k + 1) && TrustedBefore(trust, jumps, rounds, k + 1);
      }
    }
  }

  /** A round's events with anything after them. */
  lemma RoundTrust(trust: bool, keys: seq<Method>, jumps: seq<Hop>, r: Round, more: seq<Event>)
    ensures TrustedPrompts(trust, OneRound(keys, r).0, jumps) <==> (!r.ended && r.cached.None? ==> trust)
    ensures GoesOn(r) ==>
      (TrustedPrompts(trust, OneRound(keys, r).0 + more, jumps) <==>
        (r.cached.None? ==> trust) && TrustedPrompts(RefusedByTarget(ResultOf(r.dial), jumps), more, jumps))
  {
    GoesOnIff(keys, r);
    if !r.ended && PasswordOf(r).Some? {
      var d := Dial(keys, [Password(PasswordOf(r).value)], ResultOf(r.dial));
      var last := OneRound(keys, r).0[|PromptIfMissing(r)| + 1..];
      assert OneRound(keys, r).0 == PromptIfMissing(r) + ([d] + last);
      MaybePromptTrust(trust, r.cached.None?, [d] + last, jumps);
      DialTrust(trust, d, last, jumps);
      QuietTrust(RefusedByTarget(d.result, jumps), last, jumps);
      if GoesOn(r) {
        assert last == [Forget];
        assert OneRound(keys, r).0 + more == PromptIfMissing(r) + ([d] + ([Forget] + more));
        MaybePromptTrust(trust, r.cached.None?, [d] + ([Forget] + more), jumps);
        DialTrust(trust, d, [Forget] + more, jumps);
        assert ([Forget] + more)[1..] == more;
      }
    } else if !r.ended {
      assert OneRound(keys, r).0 == PromptIfMissing(r) + [];
      MaybePromptTrust(trust, r.cached.None?, [], jumps);
    }
  }

  lemma MaybePromptTrust(trust: bool, asks: bool, es: seq<Event>, jumps: seq<Hop>)
    ensures TrustedPrompts(trust, (if asks then [Prompt] else []) + es, jumps)
       <==> (asks ==> trust) && TrustedPrompts(trust, es, jumps)
  {
    if asks { assert ([Prompt] + es)[1..] == es; } else { assert [] + es == es; }
  }

  lemma DialTrust(trust: bool, d: Event, es: seq<Event>, jumps: seq<Hop>)
    requires d.Dial?
    ensures TrustedPrompts(trust, [d] + es, jumps) <==> TrustedPrompts(TargetRefused(d, jumps), es, jumps)
  {
    assert ([d] + es)[1..] == es;
  }

  lemma QuietTrust(trust: bool, es: seq<Event>, jumps: seq<Hop>)
    requires |es| <= 1 && forall e <- es :: !e.Dial? && !e.Prompt?
    ensures TrustedPrompts(trust, es, jumps)
  {
    if es != [] { assert es[0] in es && es[1..] == []; }
  }

  lemma {:induction false} LoopTrust(trust: bool, keys: seq<Method>, jumps: seq<Hop>, rounds: seq<Round>)
    ensures TrustedPrompts(trust, Loop(keys, rounds).events, jumps) <==> AsksOnTrust(trust, jumps, rounds)
    decreases |rounds|
  {
    if rounds != [] {
      var r := rounds[0];
      AsksOnTrustNext(trust, jumps, rounds);
      GoesOnIff(keys, r);
      RoundTrust(trust, keys, jumps, r, Loop(keys, rounds[1..]).events);
      LoopTrust(RefusedByTarget(ResultOf(r.dial), jumps), keys, jumps, rounds[1..]);
    }
  }

  /** In any one script: each prompt comes when the target's host key has just been accepted, exactly if
      the dial before each round that asks was refused by the target itself. */
  lemma HostKeyIsCheckedBeforeAnyPrompt(c: Setup, probe: Attempt, rounds: seq<Round>)
    ensures TrustedPrompts(false, DialSSH(c, probe, rounds).events, c.jumps) <==>
      EntersLoop(c, probe) ==> AsksOnTrust(RefusedByTarget(ResultOf(probe), c.jumps), c.jumps, rounds)
  {
    var d := Dial(c.keys, c.keys, ResultOf(probe));
    DialTrust(false, d, [], c.jumps);
    assert [d] + [] == [d];
    if ResultOf(probe).Down? { RecognisedByText(ResultOf(probe)); }
    if EntersLoop(c, probe) {
      DialTrust(false, d, Loop(c.keys, rounds).events, c.jumps);
      LoopTrust(RefusedByTarget(ResultOf(probe), c.jumps), c.keys, c.jumps, rounds);
    }
  }

  // ----- Over all scripts -----

  /** No failure but a refused authentication is worded like one. */
  ghost predicate Unmistakable(says: string -> bool) { forall s | says(s) :: !IsAuthFailed(s) }

  /** Every prompt, whatever servers, network and user do, comes on a trusted target. */
  ghost predicate AlwaysTrusted(c: Setup, says: string -> bool) {
    forall probe, rounds | PossibleScript(c, says, probe, rounds) ::
      TrustedPrompts(false, DialSSH(c, probe, rounds).events, c.jumps)
  }

  /** Without bastions and mistakable words a refusal is the target's. */
  lemma RefusalIsTheTargets(a: Attempt, says: string -> bool)
    requires Possible(a, [], says) && Unmistakable(says) && TakenForRefusal(ResultOf(a))
    ensures RefusedByTarget(ResultOf(a), [])
  {
  }

  lemma TrustedWithoutBastions(c: Setup, says: string -> bool, probe: Attempt, rounds: seq<Round>)
    requires PossibleScript(c, says, probe, rounds) && c.jumps == [] && Unmistakable(says)
    ensures TrustedPrompts(false, DialSSH(c, probe, rounds).events, c.jumps)
  {
    HostKeyIsCheckedBeforeAnyPrompt(c, probe, rounds);
    if EntersLoop(c, probe) {
      RefusalIsTheTargets(probe, says);
      forall k: nat | k < |rounds| && AsksAt(rounds, k)
        ensures TrustedBefore(RefusedByTarget(ResultOf(probe), []), [], rounds, k)
      {
        if k > 0 {
          assert rounds[k - 1] in rounds && GoesOn(rounds[k - 1]);
          RefusalIsTheTargets(rounds[k - 1].dial, says);
        }
      }
    }
  }

  const ASKING := Round(false, None, None, false, Attempt(false, [], ""))

  /** A round that asks and then has no dial of its own to go by. */
  function Asking(a: Attempt): Round { ASKING.(dial := a) }

  lemma AskedAtOnce(c: Setup, probe: Attempt)
    requires EntersLoop(c, probe)
    ensures DialSSH(c, probe, [Asking(probe)]).events == [Dial(c.keys, c.keys, ResultOf(probe)), Prompt]
    ensures TrustedPrompts(false, DialSSH(c, probe, [Asking(probe)]).events, c.jumps) <==>
      RefusedByTarget(ResultOf(probe), c.jumps)
  {
    RecognisedByText(ResultOf(probe));
    var r := Asking(probe);
    assert OneRound(c.keys, r) == ([Prompt], Some(NoPassword));
    assert Loop(c.keys, [r]) == Trace([Prompt], NoPassword);
    HostKeyIsCheckedBeforeAnyPrompt(c, probe, [r]);
    assert AsksAt([r], 0);
  }

  /** The first bastion refuses the keys, and the user is asked for the target's password although
      the target was never reached. */
  lemma BastionRefusalPrompts(c: Setup, says: string -> bool)
    requires c.passwordAuth && c.provider && c.keys != [] && c.jumps != []
    ensures var a := Attempt(true, [AuthRejected] + seq(|c.jumps|, _ => Connects), "none publickey");
      var rounds := [Asking(a)];
      && PossibleScript(c, says, a, rounds)
      && DialSSH(c, a, rounds).events == [Dial(c.keys, c.keys, ResultOf(a)), Prompt]
      && ResultOf(a).Down? && ResultOf(a).why == AtHop(0, AuthRejected)
      && !TrustedPrompts(false, DialSSH(c, a, rounds).events, c.jumps)
  {
    var a := Attempt(true, [AuthRejected] + seq(|c.jumps|, _ => Connects), "none publickey");
    assert ResultOf(a).why == AtHop(0, AuthRejected);
    AskedAtOnce(c, a);
  }

  /** A handshake that fails before the host key is looked at, with words like those of a refused
      authentication, prompts as well: no bastion is needed. */
  lemma MistakableWordsPrompt(c: Setup, says: string -> bool, text: string)
    requires c.passwordAuth && c.provider && c.jumps == [] && says(text) && IsAuthFailed(text)
    ensures var a := Attempt(true, [HandshakeFails], text);
      var rounds := [Asking(a)];
      && PossibleScript(c, says, a, rounds)
      && DialSSH(c, a, rounds).events == [Dial(c.keys, c.keys, ResultOf(a)), Prompt]
      && ResultOf(a).Down? && ResultOf(a).why == AtHop(0, HandshakeFails)
      && !TrustedPrompts(false, DialSSH(c, a, rounds).events, c.jumps)
  {
    var a := Attempt(true, [HandshakeFails], text);
    assert ResultOf(a).why == AtHop(0, HandshakeFails);
    AskedAtOnce(c, a);
  }

  /** Prompts come on a trusted target only, exactly if there is no prompt at all, or no bastion and
      nothing that could be taken for a refusal. */
  lemma PromptsAreTrustedIff(c: Setup, says: string -> bool)
    ensures AlwaysTrusted(c, says) <==>
      || !c.passwordAuth || !c.provider
      || (c.keys == [] && c.jumps != [])
      || (c.jumps == [] && Unmistakable(says))
  {
    if c.passwordAuth && c.provider && c.keys != [] && c.jumps != [] {
      BastionRefusalPrompts(c, says);
      var a := Attempt(true, [AuthRejected] + seq(|c.jumps|, _ => Connects), "none publickey");
      assert PossibleScript(c, says, a, [Asking(a)]);
    } else if c.passwordAuth && c.provider && c.jumps == [] && !Unmistakable(says) {
      var text :| says(text) && IsAuthFailed(text);
      MistakableWordsPrompt(c, says, text);
      var a := Attempt(true, [HandshakeFails], text);
      assert PossibleScript(c, says, a, [Asking(a)]);
    } else {
      forall probe, rounds | PossibleScript(c, says, probe, rounds)
        ensures TrustedPrompts(false, DialSSH(c, probe, rounds).events, c.jumps)
      {
        HostKeyIsCheckedBeforeAnyPrompt(c, probe, rounds);
        if c.jumps == [] && Unmistakable(says) {
          TrustedWithoutBastions(c, says, probe, rounds);
        }
      }
    }
  }

  // ----- Who is offered a password -----

  lemma {:induction false} LoopOffersKeysToBastions(keys: seq<Method>, rounds: seq<Round>)
    ensures forall e | e in Loop(keys, rounds).events && e.Dial? :: e.intermed == keys
    decreases |rounds|
  {
    if rounds != [] { LoopOffersKeysToBastions(keys, rounds[1..]); }
  }

  /** The password method is never offered to an intermediate hop, whatever dial of the whole
      exchange it is. */
  lemma PasswordOnlyToTheTarget(c: Setup, probe: Attempt, rounds: seq<Round>)
    requires !OffersPassword(c.keys)
    ensures forall e, i: nat | e in DialSSH(c, probe, rounds).events && e.Dial? && i < |c.jumps| ::
      !OffersPassword(OfferAt(i, c.jumps, e.intermed, e.final))
  {
    LoopOffersKeysToBastions(c.keys, rounds);
  }

  // ----- Retries -----

  /** A dial in which a server refused a password. */
  predicate Rejected(e: Event) {
    e.Dial? && OffersPassword(e.final) && Refused(e.result) && Contains(e.result.text, WORD)
  }

  predicate PasswordDials(e: Event) { e.Dial? && OffersPassword(e.final) }

  /** A dial whose password was taken for wrong; with `strict`, by a server's refusal. */
  predicate SetAside(e: Event, strict: bool) {
    PasswordDials(e) && TakenForWrongPassword(e.result) && (strict ==> Rejected(e))
  }

  /** Every password dial but the last was set aside and its password deleted at once. */
  ghost predicate RetriesFollow(es: seq<Event>, strict: bool) {
    forall i, j | 0 <= i < j < |es| && PasswordDials(es[i]) && PasswordDials(es[j]) ::
      SetAside(es[i], strict) && es[i + 1] == Forget
  }

  ghost predicate AllForgotten(es: seq<Event>, strict: bool) {
    forall i | 0 <= i < |es| && PasswordDials(es[i]) ::
      i + 1 < |es| && SetAside(es[i], strict) && es[i + 1] == Forget
  }

  lemma RetriesConcat(a: seq<Event>, b: seq<Event>, strict: bool)
    requires AllForgotten(a, strict) && RetriesFollow(b, strict)
    ensures RetriesFollow(a + b, strict)
  {
    var es := a + b;
    forall i, j | 0 <= i < j < |es| && PasswordDials(es[i]) && PasswordDials(es[j])
      ensures SetAside(es[i], strict) && es[i + 1] == Forget
    {
      if i < |a| {
        assert es[i] == a[i] && es[i + 1] == a[i + 1];
      } else {
        assert es[i] == b[i - |a|] && es[j] == b[j - |a|] && es[i + 1] == b[i + 1 - |a|];
      }
    }
  }

  /** What is taken for a wrong password is one. */
  predicate Plain(d: DialResult) { TakenForWrongPassword(d) ==> Refused(d) }

  /** One round holds at most one password dial, and goes on only after setting it aside and deleting. */
  lemma RoundRetries(keys: seq<Method>, r: Round, strict: bool)
    requires strict ==> Plain(ResultOf(r.dial))
    ensures RetriesFollow(OneRound(keys, r).0, strict)
    ensures OneRound(keys, r).1.None? ==> AllForgotten(OneRound(keys, r).0, strict)
  {
    var (es, v) := OneRound(keys, r);
    var n := |PromptIfMissing(r)|;
    GoesOnIff(keys, r);
    if |es| > n {
      var d := es[n];
      assert d.final[0].Password? && d.final[0] in d.final;
      assert PasswordDials(d);
      assert forall i | 0 <= i < |es| && i != n :: !es[i].Dial?;
      if v.None? {
        assert SetAside(d, strict) && es[n + 1] == Forget;
      }
    }
  }

  lemma {:induction false} LoopRetries(keys: seq<Method>, rounds: seq<Round>, strict: bool)
    requires strict ==> forall r <- rounds :: Plain(ResultOf(r.dial))
    ensures RetriesFollow(Loop(keys, rounds).events, strict)
    decreases |rounds|
  {
    if rounds != [] {
      RoundRetries(keys, rounds[0], strict);
      if OneRound(keys, rounds[0]).1.None? {
        LoopRetries(keys, rounds[1..], strict);
        RetriesConcat(OneRound(keys, rounds[0]).0, Loop(keys, rounds[1..]).events, strict);
      }
    }
  }

  /** In every script each password dial but the last ended in what is taken for a wrong password, and
      that password was deleted at once; and if that is never a mistake, a server refused it. */
  lemma EveryRetryFollowsADeletion(c: Setup, probe: Attempt, rounds: seq<Round>, strict: bool)
    requires !OffersPassword(c.keys) && (strict ==> forall r <- rounds :: Plain(ResultOf(r.dial)))
    ensures RetriesFollow(DialSSH(c, probe, rounds).events, strict)
  {
    LoopRetries(c.keys, rounds, strict);
    RetriesConcat(Probe(c, probe).0, Loop(c.keys, rounds).events, strict);
  }

  /** No failure but a refused authentication is worded like that of a wrong password. */
  predicate LooksWrong(s: string) { IsAuthFailed(s) && PasswordAuthAvailable(s) }

  ghost predicate NeverLooksWrong(says: string -> bool) { forall s | says(s) :: !LooksWrong(s) }

  ghost predicate AlwaysRejected(c: Setup, says: string -> bool) {
    forall probe, rounds | PossibleScript(c, says, probe, rounds) ::
      RetriesFollow(DialSSH(c, probe, rounds).events, true)
  }

  /** The dials can come to the loop at all. */
  predicate CanLoop(c: Setup) { c.passwordAuth && c.provider && (c.keys != [] || c.jumps == []) }

  /** The keys are refused at the first hop. */
  function KeysRefused(c: Setup): Attempt {
    Attempt(true, [AuthRejected] + seq(|c.jumps|, _ => Connects), "none publickey")
  }

  /** A handshake that fails at the first hop with this text, the password being at hand or typed in. */
  function Mistaken(c: Setup, text: string, typed: bool): Round {
    Round(false, if typed then None else Some("pw"), Some("pw"), false,
          Attempt(true, [HandshakeFails] + seq(|c.jumps|, _ => Connects), text))
  }

  lemma MistakenTwice(c: Setup, says: string -> bool, text: string, typed: bool)
    requires CanLoop(c) && says(text) && LooksWrong(text)
    ensures var r := Mistaken(c, text, typed);
      var d := Dial(c.keys, [Password("pw")], ResultOf(r.dial));
      && PossibleScript(c, says, KeysRefused(c), [r, r])
      && d.result.Down? && d.result.why == AtHop(0, HandshakeFails)
      && DialSSH(c, KeysRefused(c), [r, r]).events
         == [Dial(c.keys, c.keys, ResultOf(KeysRefused(c)))]
            + (PromptIfMissing(r) + [d] + [Forget] + (PromptIfMissing(r) + [d] + [Forget]))
  {
    var r := Mistaken(c, text, typed);
    var a := KeysRefused(c);
    assert ResultOf(a).why == AtHop(0, AuthRejected) && ResultOf(r.dial).why == AtHop(0, HandshakeFails);
    RecognisedByText(ResultOf(a));
    GoesOnIff(c.keys, r);
    LoopTwice(c.keys, r);
  }

  lemma LoopTwice(keys: seq<Method>, r: Round)
    requires OneRound(keys, r).1.None?
    ensures Loop(keys, [r, r]).events == OneRound(keys, r).0 + OneRound(keys, r).0
  {
    assert [r, r][1..] == [r] && [r][1..] == [];
    assert Loop(keys, []).events == [];
    assert Loop(keys, [r]).events == OneRound(keys, r).0 + [];
  }

  /** Then a stored password that no server saw is deleted, and dialed again. */
  lemma MistakableWordsCostThePassword(c: Setup, says: string -> bool, text: string)
    requires CanLoop(c) && says(text) && LooksWrong(text)
    ensures var r := Mistaken(c, text, false);
      var d := Dial(c.keys, [Password("pw")], ResultOf(r.dial));
      && PossibleScript(c, says, KeysRefused(c), [r, r])
      && DialSSH(c, KeysRefused(c), [r, r]).events
         == [Dial(c.keys, c.keys, ResultOf(KeysRefused(c))), d, Forget, d, Forget]
      && !Refused(d.result) && !RetriesFollow(DialSSH(c, KeysRefused(c), [r, r]).events, true)
  {
    MistakenTwice(c, says, text, false);
    var es := DialSSH(c, KeysRefused(c), [Mistaken(c, text, false), Mistaken(c, text, false)]).events;
    assert Password("pw") in es[1].final;
    assert PasswordDials(es[1]) && PasswordDials(es[3]) && !SetAside(es[1], true);
  }

  lemma PlainUnless(a: Attempt, jumps: seq<Hop>, says: string -> bool)
    requires Possible(a, jumps, says) && NeverLooksWrong(says)
    ensures Plain(ResultOf(a))
  {
  }

  lemma AllPlain(c: Setup, says: string -> bool, probe: Attempt, rounds: seq<Round>)
    requires PossibleScript(c, says, probe, rounds) && NeverLooksWrong(says)
    ensures forall r <- rounds :: Plain(ResultOf(r.dial))
  {
    forall r <- rounds ensures Plain(ResultOf(r.dial)) {
      PlainUnless(r.dial, c.jumps, says);
    }
  }

  lemma NoLoopNoPassword(c: Setup, probe: Attempt, rounds: seq<Round>)
    requires !CanLoop(c) && !OffersPassword(c.keys)
    ensures forall e <- DialSSH(c, probe, rounds).events :: !PasswordDials(e) && !e.Prompt?
  {
  }

  /** Each retry follows a server's refusal of the password before, exactly if there is no retry at all
      or no failure that looks like one. */
  lemma RetriesAreRejectionsIff(c: Setup, says: string -> bool)
    requires !OffersPassword(c.keys)
    ensures AlwaysRejected(c, says) <==> !CanLoop(c) || NeverLooksWrong(says)
  {
    if CanLoop(c) && !NeverLooksWrong(says) {
      var text :| says(text) && LooksWrong(text);
      MistakableWordsCostThePassword(c, says, text);
      var r := Mistaken(c, text, false);
      assert PossibleScript(c, says, KeysRefused(c), [r, r]);
    } else {
      forall probe, rounds | PossibleScript(c, says, probe, rounds)
        ensures RetriesFollow(DialSSH(c, probe, rounds).events, true)
      {
        if CanLoop(c) {
          AllPlain(c, says, probe, rounds);
          EveryRetryFollowsADeletion(c, probe, rounds, true);
        } else {
          NoLoopNoPassword(c, probe, rounds);
        }
      }
    }
  }

  // ----- The tuber's rejection counter -----

  /** The sink's state: whether a password is pending, and passwordAttempts. */
  datatype Pending = Pending(account: bool, attempts: nat)

  const NO_PROMPT := Pending(false, 0)

  function Sink(p: Pending, e: Event): Pending {
    match e
    case Prompt => Pending(true, if p.account then p.attempts + 1 else p.attempts)
    case Dismiss => p.(account := false)
    case _ => p
  }

  function SinkAll(p: Pending, es: seq<Event>): Pending
    decreases |es|
  {
    if es == [] then p else SinkAll(Sink(p, es[0]), es[1..])
  }

  /** The dials set aside; with `strict`, by a server's refusal. */
  function CountAside(es: seq<Event>, strict: bool): nat {
    if es == [] then 0 else (if SetAside(es[0], strict) then 1 else 0) + CountAside(es[1..], strict)
  }

  lemma {:induction false} SinkConcat(p: Pending, a: seq<Event>, b: seq<Event>, strict: bool)
    ensures SinkAll(p, a + b) == SinkAll(SinkAll(p, a), b)
    ensures CountAside(a + b, strict) == CountAside(a, strict) + CountAside(b, strict)
    decreases |a|
  {
    if a == [] {
      assert a + b == b;
    } else {
      assert (a + b)[1..] == a[1..] + b;
      SinkConcat(Sink(p, a[0]), a[1..], b, strict);
    }
  }

  /** One prompt if the password is not at hand, and nothing to count. */
  lemma PromptCounts(p: Pending, r: Round, strict: bool)
    ensures SinkAll(p, PromptIfMissing(r)).attempts <= p.attempts + (if p.account then 1 else 0)
    ensures CountAside(PromptIfMissing(r), strict) == 0
  {
  }

  lemma OneCounts(p: Pending, e: Event, strict: bool)
    ensures SinkAll(p, [e]) == Sink(p, e) && CountAside([e], strict) == if SetAside(e, strict) then 1 else 0
  {
    assert [e][1..] == [];
  }

  /** A dial and what follows it at once add no attempt. */
  lemma TriedCounts(p: Pending, before: seq<Event>, d: Event, after: seq<Event>, strict: bool)
    requires d.Dial? && (after == [] || after == [Dismiss] || after == [Forget])
    ensures SinkAll(p, before + [d] + after).attempts == SinkAll(p, before).attempts
    ensures CountAside(before + [d] + after, strict)
      == CountAside(before, strict) + if SetAside(d, strict) then 1 else 0
  {
    var q := SinkAll(p, before);
    OneCounts(q, d, strict);
    SinkConcat(p, before, [d], strict);
    SinkConcat(p, before + [d], after, strict);
    if after != [] { OneCounts(q, after[0], strict); }
  }

  lemma RoundCounts(p: Pending, keys: seq<Method>, r: Round, strict: bool)
    requires strict ==> Plain(ResultOf(r.dial))
    ensures var es := OneRound(keys, r).0;
      && SinkAll(p, es).attempts <= p.attempts + (if p.account then 1 else 0)
      && (GoesOn(r) ==> CountAside(es, strict) == 1)
  {
    var es := OneRound(keys, r).0;
    GoesOnIff(keys, r);
    PromptCounts(p, r, strict);
    if !r.ended && PasswordOf(r).Some? {
      var d := Dial(keys, [Password(PasswordOf(r).value)], ResultOf(r.dial));
      assert Password(PasswordOf(r).value) in d.final;
      var after := es[|PromptIfMissing(r)| + 1..];
      assert es == PromptIfMissing(r) + [d] + after;
      TriedCounts(p, PromptIfMissing(r), d, after, strict);
    }
  }

  lemma {:induction false} LoopAttempts(p: Pending, keys: seq<Method>, rounds: seq<Round>, strict: bool)
    requires strict ==> forall r <- rounds :: Plain(ResultOf(r.dial))
    ensures var es := Loop(keys, rounds).events;
      SinkAll(p, es).attempts <= p.attempts + (if p.account then 1 else 0) + CountAside(es, strict)
    decreases |rounds|
  {
    if rounds != [] {
      var r := rounds[0];
      var es := OneRound(keys, r).0;
      RoundCounts(p, keys, r, strict);
      GoesOnIff(keys, r);
      if GoesOn(r) {
        LoopAttempts(SinkAll(p, es), keys, rounds[1..], strict);
        SinkConcat(p, es, Loop(keys, rounds[1..]).events, strict);
      }
    }
  }

  /** passwordAttempts, which a dial starts at zero with nothing pending, never exceeds the passwords
      taken for wrong in that dial; nor, if that is never a mistake, the server's refusals. */
  lemma AttemptsAreSetAside(c: Setup, probe: Attempt, rounds: seq<Round>, strict: bool)
    requires strict ==> forall r <- rounds :: Plain(ResultOf(r.dial))
    ensures var es := DialSSH(c, probe, rounds).events; SinkAll(NO_PROMPT, es).attempts <= CountAside(es, strict)
  {
    LoopAttempts(NO_PROMPT, c.keys, rounds, strict);
    var d := Dial(c.keys, c.keys, ResultOf(probe));
    OneCounts(NO_PROMPT, d, strict);
    SinkConcat(NO_PROMPT, [d], Loop(c.keys, rounds).events, strict);
  }

  ghost predicate AlwaysCounted(c: Setup, says: string -> bool) {
    forall probe, rounds | PossibleScript(c, says, probe, rounds) ::
      var es := DialSSH(c, probe, rounds).events;
      SinkAll(NO_PROMPT, es).attempts <= CountAside(es, true)
  }

  /** A user who types the password twice is told of a wrong one that no server refused. */
  lemma MistakableWordsAreCounted(c: Setup, says: string -> bool, text: string)
    requires CanLoop(c) && says(text) && LooksWrong(text) && !OffersPassword(c.keys)
    ensures var r := Mistaken(c, text, true);
      var es := DialSSH(c, KeysRefused(c), [r, r]).events;
      PossibleScript(c, says, KeysRefused(c), [r, r]) && SinkAll(NO_PROMPT, es).attempts == 1
        && CountAside(es, true) == 0
  {
    MistakenTwice(c, says, text, true);
    var r := Mistaken(c, text, true);
    var d := Dial(c.keys, [Password("pw")], ResultOf(r.dial));
    var one := [Prompt, d, Forget];
    var key := Dial(c.keys, c.keys, ResultOf(KeysRefused(c)));
    assert PromptIfMissing(r) + [d] + [Forget] == one;
    CountsNothing(NO_PROMPT, d);
    CountsNothing(Pending(true, 0), d);
    OneCounts(NO_PROMPT, key, true);
    SinkConcat(NO_PROMPT, [key], one + one, true);
    SinkConcat(NO_PROMPT, one, one, true);
  }

  lemma CountsNothing(p: Pending, d: Event)
    requires d.Dial? && !Rejected(d)
    ensures SinkAll(p, [Prompt, d, Forget]) == Sink(p, Prompt) && CountAside([Prompt, d, Forget], true) == 0
  {
    OneCounts(p, Prompt, true);
    TriedCounts(p, [Prompt], d, [Forget], true);
    SinkConcat(p, [Prompt] + [d], [Forget], true);
    SinkConcat(p, [Prompt], [d], true);
    OneCounts(Sink(p, Prompt), d, true);
    OneCounts(Sink(p, Prompt), Forget, true);
    assert [Prompt] + [d] + [Forget] == [Prompt, d, Forget];
  }

  /** passwordAttempts never exceeds the server's refusals, exactly under the same condition. */
  lemma AttemptsAreRejectionsIff(c: Setup, says: string -> bool)
    requires !OffersPassword(c.keys)
    ensures AlwaysCounted(c, says) <==> !CanLoop(c) || NeverLooksWrong(says)
  {
    if CanLoop(c) && !NeverLooksWrong(says) {
      var text :| says(text) && LooksWrong(text);
      MistakableWordsAreCounted(c, says, text);
      var r := Mistaken(c, text, true);
      assert PossibleScript(c, says, KeysRefused(c), [r, r]);
    } else {
      forall probe, rounds | PossibleScript(c, says, probe, rounds)
        ensures var es := DialSSH(c, probe, rounds).events;
          SinkAll(NO_PROMPT, es).attempts <= CountAside(es, true)
      {
        if CanLoop(c) {
          AllPlain(c, says, probe, rounds);
          AttemptsAreSetAside(c, probe, rounds, true);
        } else {
          NoLoopNoCount(c, probe, rounds);
        }
      }
    }
  }

  lemma NoLoopNoCount(c: Setup, probe: Attempt, rounds: seq<Round>)
    requires !CanLoop(c)
    ensures SinkAll(NO_PROMPT, DialSSH(c, probe, rounds).events) == NO_PROMPT
  {
    OneCounts(NO_PROMPT, Dial(c.keys, c.keys, ResultOf(probe)), true);
  }

  // ----- What is left pending, and what the verdict says -----

  predicate Ups(e: Event) { e.Dial? && e.result.Up? }

  /** Before: whether a prompt is pending; after these events it is pending still, or again. */
  predicate PendingAfter(was: bool, es: seq<Event>) { SinkAll(Pending(was, 0), es).account }

  lemma {:induction false} PendingOnly(p: Pending, es: seq<Event>)
    ensures SinkAll(p, es).account == PendingAfter(p.account, es)
    decreases |es|
  {
    if es != [] {
      PendingOnly(Sink(p, es[0]), es[1..]);
      PendingOnly(Sink(Pending(p.account, 0), es[0]), es[1..]);
    }
  }

  lemma PendingConcat(was: bool, a: seq<Event>, b: seq<Event>)
    ensures PendingAfter(was, a + b) == PendingAfter(PendingAfter(was, a), b)
  {
    SinkConcat(Pending(was, 0), a, b, false);
    PendingOnly(SinkAll(Pending(was, 0), a), b);
  }

  lemma PendingOne(was: bool, e: Event)
    ensures PendingAfter(was, [e]) == (e.Prompt? || (was && !e.Dismiss?))
  {
    OneCounts(Pending(was, 0), e, false);
  }

  lemma PendingTried(was: bool, before: seq<Event>, d: Event, after: seq<Event>)
    requires d.Dial? && |after| <= 1
    ensures PendingAfter(was, before + [d] + after)
      == if after == [] then PendingAfter(was, before)
         else after[0].Prompt? || (PendingAfter(was, before) && !after[0].Dismiss?)
  {
    PendingConcat(was, before + [d], after);
    PendingConcat(was, before, [d]);
    PendingOne(PendingAfter(was, before), d);
    if after != [] {
      assert after == [after[0]];
      PendingOne(PendingAfter(was, before), after[0]);
    }
  }

  /** A round leaves its prompt, or an earlier one, pending unless it connects. */
  lemma RoundPending(was: bool, keys: seq<Method>, r: Round)
    ensures var (es, v) := OneRound(keys, r);
      && PendingAfter(was, es) == ((was || Prompt in es) && v != Some(Connected))
      && (v == Some(Connected) <==> exists e :: e in es && Ups(e))
  {
    var es := OneRound(keys, r).0;
    var asks := PromptIfMissing(r);
    if asks != [] { PendingOne(was, Prompt); }
    if !r.ended && PasswordOf(r).Some? {
      var d := Dial(keys, [Password(PasswordOf(r).value)], ResultOf(r.dial));
      var after := es[|asks| + 1..];
      assert es == asks + [d] + after;
      PendingTried(was, asks, d, after);
      if ResultOf(r.dial).Up? { assert Ups(d) && d in es; }
    }
  }

  lemma {:induction false} LoopPending(was: bool, keys: seq<Method>, rounds: seq<Round>)
    ensures var t := Loop(keys, rounds);
      && PendingAfter(was, t.events) == ((was || Prompts(t)) && !t.verdict.Connected?)
      && (t.verdict.Connected? <==> exists e :: e in t.events && Ups(e))
    decreases |rounds|
  {
    if rounds != [] {
      var (es, v) := OneRound(keys, rounds[0]);
      RoundPending(was, keys, rounds[0]);
      if v.None? {
        var more := Loop(keys, rounds[1..]);
        LoopPending(PendingAfter(was, es), keys, rounds[1..]);
        PendingConcat(was, es, more.events);
        assert forall e :: e in es + more.events <==> e in es || e in more.events;
      }
    }
  }

  /** A dial ends connected exactly if one of its dials came up, and then no prompt is left; any other
      end leaves a prompt up exactly if there was one. */
  lemma PromptIsLeftIff(c: Setup, probe: Attempt, rounds: seq<Round>)
    ensures var t := DialSSH(c, probe, rounds);
      && (t.verdict.Connected? <==> exists e :: e in t.events && Ups(e))
      && (SinkAll(NO_PROMPT, t.events).account <==> Prompts(t) && !t.verdict.Connected?)
  {
    var d := Dial(c.keys, c.keys, ResultOf(probe));
    PendingOne(false, d);
    if Ups(d) { assert d in [d]; }
    LoopPending(false, c.keys, rounds);
    PendingConcat(false, [d], Loop(c.keys, rounds).events);
  }

  /** What each verdict says of the last thing that happened. */
  predicate Tells(v: Verdict, last: Event) {
    match v
    case Connected => Ups(last) || last.Dismiss?
    case NoPassword => last.Prompt?
    case NotOffered => PasswordDials(last) && TakenForRefusal(last.result) && !TakenForWrongPassword(last.result)
    case DialFailed(why) => last.Dial? && last.result.Down? && last.result.why == why
    case NoProvider => last.Dial? && TakenForRefusal(last.result)
    case _ => true
  }

  lemma RoundTells(keys: seq<Method>, r: Round)
    requires OneRound(keys, r).1.Some?
    ensures var (es, v) := OneRound(keys, r);
      if es == [] then v == Some(Cancelled) else Tells(v.value, es[|es| - 1])
  {
    if !r.ended && PasswordOf(r).Some? {
      var ms := [Password(PasswordOf(r).value)];
      assert ms[0] in ms && OffersPassword(ms);
      if ResultOf(r.dial).Down? { WrongPasswordByText(ResultOf(r.dial)); RecognisedByText(ResultOf(r.dial)); }
    }
  }

  lemma {:induction false} LoopTells(keys: seq<Method>, rounds: seq<Round>)
    ensures var t := Loop(keys, rounds);
      if t.events == [] then t.verdict.Cancelled? || t.verdict.StillTrying?
      else Tells(t.verdict, t.events[|t.events| - 1])
    decreases |rounds|
  {
    if rounds != [] {
      if OneRound(keys, rounds[0]).1.Some? {
        RoundTells(keys, rounds[0]);
      } else {
        LoopTells(keys, rounds[1..]);
      }
    }
  }

  /** The verdict is about the last thing that happened: whose failure is reported, whether the server
      offered passwords, who gave none. */
  lemma VerdictTells(c: Setup, probe: Attempt, rounds: seq<Round>)
    ensures var t := DialSSH(c, probe, rounds);
      && (t.verdict.NoMethod? <==> !c.passwordAuth && c.keys == [])
      && (t.verdict.NeedsKey? <==> c.passwordAuth && c.keys == [] && c.jumps != [])
      && (t.events == [] <==> t.verdict.NoMethod? || t.verdict.NeedsKey?)
      && (t.events != [] ==> Tells(t.verdict, t.events[|t.events| - 1]))
  {
    LoopTells(c.keys, rounds);
    LoopNeverLacks(c.keys, rounds);
    if ResultOf(probe).Down? { RecognisedByText(ResultOf(probe)); }
  }

  lemma {:induction false} LoopNeverLacks(keys: seq<Method>, rounds: seq<Round>)
    ensures var v := Loop(keys, rounds).verdict; !v.NoMethod? && !v.NeedsKey? && !v.NoProvider?
    decreases |rounds|
  {
    if rounds != [] { LoopNeverLacks(keys, rounds[1..]); }
  }

  /** The passwords that were dialed, in order. */
  function Tried(es: seq<Event>): seq<Method> {
    if es == [] then [] else (if PasswordDials(es[0]) then es[0].final else []) + Tried(es[1..])
  }

  /** The passwords the provider gives: one a round, the next only when the last was taken for wrong. */
  function Given(rounds: seq<Round>): seq<Method> {
    if rounds == [] || rounds[0].ended || PasswordOf(rounds[0]).None? then []
    else [Password(PasswordOf(rounds[0]).value)] + (if GoesOn(rounds[0]) then Given(rounds[1..]) else [])
  }

  lemma {:induction false} TriedConcat(a: seq<Event>, b: seq<Event>)
    ensures Tried(a + b) == Tried(a) + Tried(b)
    decreases |a|
  {
    if a == [] {
      assert a + b == b;
    } else {
      assert (a + b)[1..] == a[1..] + b;
      TriedConcat(a[1..], b);
    }
  }

  lemma TriedOne(e: Event)
    ensures Tried([e]) == if PasswordDials(e) then e.final else []
  {
    assert [e][1..] == [];
  }

  lemma RoundTried(keys: seq<Method>, r: Round)
    ensures Tried(OneRound(keys, r).0)
      == if r.ended || PasswordOf(r).None? then [] else [Password(PasswordOf(r).value)]
  {
    var es := OneRound(keys, r).0;
    var asks := PromptIfMissing(r);
    if asks != [] { TriedOne(Prompt); }
    if !r.ended && PasswordOf(r).Some? {
      var d := Dial(keys, [Password(PasswordOf(r).value)], ResultOf(r.dial));
      assert d.final[0] in d.final && PasswordDials(d);
      var after := es[|asks| + 1..];
      assert es == asks + ([d] + after);
      TriedConcat(asks, [d] + after);
      TriedConcat([d], after);
      TriedOne(d);
      if after != [] { assert after == [after[0]]; TriedOne(after[0]); }
    }
  }

  lemma {:induction false} LoopTried(keys: seq<Method>, rounds: seq<Round>)
    ensures Tried(Loop(keys, rounds).events) == Given(rounds)
    decreases |rounds|
  {
    if rounds != [] {
      RoundTried(keys, rounds[0]);
      GoesOnIff(keys, rounds[0]);
      if GoesOn(rounds[0]) {
        LoopTried(keys, rounds[1..]);
        TriedConcat(OneRound(keys, rounds[0]).0, Loop(keys, rounds[1..]).events);
      }
    }
  }

  /** The passwords dialed are those the provider gave, in its order, each once, up to the first that
      was not taken for wrong. */
  lemma DialsWhatItIsGiven(c: Setup, probe: Attempt, rounds: seq<Round>)
    requires !OffersPassword(c.keys)
    ensures Tried(DialSSH(c, probe, rounds).events) == if EntersLoop(c, probe) then Given(rounds) else []
  {
    var d := Dial(c.keys, c.keys, ResultOf(probe));
    TriedOne(d);
    LoopTried(c.keys, rounds);
    TriedConcat([d], Loop(c.keys, rounds).events);
    if ResultOf(probe).Down? { RecognisedByText(ResultOf(probe)); }
  }
}
