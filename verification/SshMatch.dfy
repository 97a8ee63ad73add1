/** The lenient reader of ssh_config text (internal/config/sshmatch.go).

    Text is a sequence of characters.  Home directory, globbing, file contents and path cleaning
    are what `Files` answers; whether an alias matches a Host or Match header is a parameter of the
    lookup. */
module SshMatch {

  import opened Text
  import opened Wrappers

  function Lines(text: string): (r: seq<string>)
    ensures r != [] && forall l | l in r :: '\n' !in l
  {
    Split(text, '\n')
  }

  // ----- Tokens -----

  datatype Lexer = Lexer(toks: seq<string>, cur: string, inQuote: bool, haveTok: bool, ended: bool)

  function Feed(x: Lexer, c: char): Lexer {
    if x.ended then x
    else if c == '"' then x.(inQuote := !x.inQuote, haveTok := true)
    else if !x.inQuote && (c == ' ' || c == '\t') then
      if x.haveTok then x.(toks := x.toks + [x.cur], cur := "", haveTok := false) else x
    else if !x.inQuote && c == '#' && !x.haveTok then x.(ended := true)
    else x.(cur := x.cur + [c], haveTok := true)
  }

  function Fed(x: Lexer, s: string): Lexer
    decreases |s|
  {
    if s == "" then x else Feed(Fed(x, s[..|s| - 1]), s[|s| - 1])
  }

  const FRESH := Lexer([], "", false, false, false)

  function Tokens(s: string): seq<string> {
    var x := Fed(FRESH, s);
    if x.haveTok && !x.ended then x.toks + [x.cur] else x.toks
  }

  method SplitTokens(s: string) returns (toks: seq<string>)
    ensures toks == Tokens(s)
  {
    toks := [];
    var cur, inQuote, haveTok := "", false, false;
    var i := 0;
    while i < |s|
      invariant 0 <= i <= |s|
      invariant Fed(FRESH, s[..i]) == Lexer(toks, cur, inQuote, haveTok, false)
    {
      var c := s[i];
      assert s[..i + 1][..i] == s[..i];
      if c == '"' {
        inQuote, haveTok := !inQuote, true;
      } else if !inQuote && (c == ' ' || c == '\t') {
        if haveTok {
          toks, cur, haveTok := toks + [cur], "", false;
        }
      } else if !inQuote && c == '#' && !haveTok {
        FedEnded(FRESH, s, i + 1);
        return;
      } else {
        cur, haveTok := cur + [c], true;
      }
      i := i + 1;
    }
    assert s[..|s|] == s;
    if haveTok {
      toks := toks + [cur];
    }
  }

  lemma {:induction false} FedEnded(x: Lexer, s: string, i: nat)
    requires i <= |s| && Fed(x, s[..i]).ended
    ensures Fed(x, s) == Fed(x, s[..i])
    decreases |s|
  {
    if i == |s| {
      assert s[..i] == s;
    } else {
      assert s[..|s| - 1][..i] == s[..i];
      FedEnded(x, s[..|s| - 1], i);
    }
  }

  lemma {:induction false} FedAppend(x: Lexer, a: string, b: string)
    ensures Fed(x, a + b) == Fed(Fed(x, a), b)
    decreases |b|
  {
    if b == "" {
      assert a + b == a;
    } else {
      assert (a + b)[..|a + b| - 1] == a + b[..|b| - 1];
      FedAppend(x, a, b[..|b| - 1]);
    }
  }

  /** A trimmed line that is neither empty nor a comment has a first token. */
  lemma {:induction false} TokensNonEmpty(s: string)
    requires s != "" && s[0] != '#' && !IsSpace(s[0])
    ensures Tokens(s) != []
  {
    StartedNonEmpty(s);
  }

  lemma {:induction false} StartedNonEmpty(s: string)
    requires s != "" && s[0] != '#' && !IsSpace(s[0])
    ensures var x := Fed(FRESH, s); x.toks != [] || (x.haveTok && !x.ended)
    decreases |s|
  {
    if |s| == 1 {
      assert s[..0] == "";
    } else {
      StartedNonEmpty(s[..|s| - 1]);
    }
  }

  /** Every token in double quotes, separated by blanks. */
  function Quoted(ts: seq<string>): string {
    if ts == [] then "" else Quoted(ts[..|ts| - 1]) + " \"" + ts[|ts| - 1] + "\""
  }

  /** Quoting is honoured: any token free of double quotes survives, blanks, tabs and '#' included. */
  lemma QuotedTokensSurvive(ts: seq<string>)
    requires forall t | t in ts :: '"' !in t
    ensures Tokens(Quoted(ts)) == ts
  {
    QuotedLexes(ts);
    if ts != [] { assert ts[..|ts| - 1] + [ts[|ts| - 1]] == ts; }
  }

  lemma {:induction false} QuotedLexes(ts: seq<string>)
    requires forall t | t in ts :: '"' !in t
    ensures Fed(FRESH, Quoted(ts))
      == if ts == [] then FRESH else Lexer(ts[..|ts| - 1], ts[|ts| - 1], false, true, false)
  {
    if ts != [] {
      var before := ts[..|ts| - 1];
      var t := ts[|ts| - 1];
      QuotedLexes(before);
      var x := Fed(FRESH, Quoted(before));
      if before != [] { assert before[..|before| - 1] + [before[|before| - 1]] == before; }
      var y := Lexer(before, "", true, true, false);
      FedAppend(FRESH, Quoted(before), " \"");
      assert " \""[..1] == " " && " "[..0] == "";
      assert Fed(x, " ") == Feed(x, ' ');
      assert Fed(x, " \"") == y;
      FedAppend(FRESH, Quoted(before) + " \"", t);
      FedInQuotes(y, t);
      FedAppend(FRESH, Quoted(before) + " \"" + t, "\"");
      assert "\""[..0] == "";
    }
  }

  lemma {:induction false} FedInQuotes(x: Lexer, t: string)
    requires '"' !in t && x.inQuote && x.haveTok && !x.ended
    ensures Fed(x, t) == x.(cur := x.cur + t)
    decreases |t|
  {
    if t == "" {
      assert x.cur + t == x.cur;
    } else {
      FedInQuotes(x, t[..|t| - 1]);
      assert x.cur + t == x.cur + t[..|t| - 1] + [t[|t| - 1]];
    }
  }

  // ----- Directives -----

  /** Keyword and arguments, accepting `Keyword=value`. */
  function SplitKeyword(toks: seq<string>): (string, seq<string>)
    requires toks != []
  {
    var i := IndexOf(toks[0], '=');
    if i < 0 then (ToLower(toks[0]), toks[1..])
    else
      var v := toks[0][i + 1..];
      (ToLower(toks[0][..i]), if v == "" then toks[1..] else [v] + toks[1..])
  }

  const CRITERIA: set<string> :=
    { "all", "canonical", "exec", "final", "host", "localuser", "originalhost", "rdomain", "user" }

  predicate HasCriterionWord(args: seq<string>) { exists a :: a in args && ToLower(a) in CRITERIA }

  predicate MatchEvaluable(args: seq<string>) {
    && args != []
    && !HasCriterionWord(args[1..])
    && (ToLower(args[0]) == "all" || (ToLower(args[0]) == "host" && |args| > 1))
  }

  datatype Line = Plain | Host(args: seq<string>) | Match(args: seq<string>) | BadMatch | Include(args: seq<string>)
    | Directive(key: string, args: seq<string>)

  function Classify(line: string): Line {
    var t := TrimSpace(line);
    if t == "" || t[0] == '#' || Tokens(t) == [] then Plain
    else
      var (kw, args) := SplitKeyword(Tokens(t));
      if kw == "host" then Host(args)
      else if kw == "match" then if MatchEvaluable(args) then Match(args) else BadMatch
      else if kw == "include" then Include(args)
      else Directive(kw, args)
  }

  predicate Header(c: Line) { c.Host? || c.Match? || c.BadMatch? }

  /** The last line stands in a block that portato cannot evaluate (its header included). */
  predicate Inert(lines: seq<string>)
    decreases |lines|
  {
    lines != [] &&
    var c := Classify(lines[|lines| - 1]);
    if Header(c) then c.BadMatch? else Inert(lines[..|lines| - 1])
  }

  lemma ClassifyTokens(line: string)
    requires var t := TrimSpace(line); t != "" && t[0] != '#'
    ensures Tokens(TrimSpace(line)) != []
    ensures var (kw, args) := SplitKeyword(Tokens(TrimSpace(line)));
      Classify(line) ==
      if kw == "host" then Host(args)
      else if kw == "match" then if MatchEvaluable(args) then Match(args) else BadMatch
      else if kw == "include" then Include(args)
      else Directive(kw, args)
  {
    TokensNonEmpty(TrimSpace(line));
  }

  // ----- Files -----

  datatype Target = Absolute(p: string) | InHome(p: string) | InSsh(p: string)

  function Resolve(a: string): Target {
    if a != "" && a[0] == '/' then Absolute(a)
    else if |a| >= 2 && a[..2] == "~/" then InHome(a[2..])
    else InSsh(a)
  }

  datatype Files = Files(
    home: bool,
    glob: Target -> Option<seq<string>>,
    read: string -> Option<string>,
    clean: string -> string)

  datatype Warning = SkippedMatch(path: string, header: string) | Cycle(key: string)

  /** What one call yields: its lines, its warnings, and for each file it opened the chain of files
      that include one another down to it. */
  datatype Out = Out(lines: seq<string>, warns: seq<Warning>, chains: seq<seq<string>>)

  function Joined(a: Out, b: Out): Out { Out(a.lines + b.lines, a.warns + b.warns, a.chains + b.chains) }

  const NOTHING := Out([], [], [])

  const MAX_DEPTH: nat := 5

  function Dedupe(xs: seq<string>): (r: seq<string>)
    ensures forall x :: x in r <==> x in xs
    ensures forall i, j | 0 <= i < j < |r| :: r[i] != r[j]
  {
    if xs == [] then []
    else
      var r := Dedupe(xs[..|xs| - 1]);
      assert xs == xs[..|xs| - 1] + [xs[|xs| - 1]];
      if xs[|xs| - 1] in r then r else r + [xs[|xs| - 1]]
  }

  /** The files all patterns name, or None when one pattern is bad. */
  function Globbed(fs: Files, args: seq<string>): Option<seq<string>> {
    if args == [] then Some([])
    else match Globbed(fs, args[..|args| - 1])
      case None => None
      case Some(files) =>
        match fs.glob(Resolve(args[|args| - 1]))
        case None => None
        case Some(ms) => Some(files + ms)
  }

  // ----- The filter as functions -----

  function Filtered(fs: Files, lines: seq<string>, path: string, depth: nat, visiting: set<string>,
                    chain: seq<string>): Out
    requires depth <= MAX_DEPTH
    decreases MAX_DEPTH - depth, 2, |lines|
  {
    if lines == [] then NOTHING
    else
      var before := Filtered(fs, lines[..|lines| - 1], path, depth, visiting, chain);
      Joined(before, Piece(fs, lines, path, depth, visiting, chain))
  }

  /** What the last line contributes. */
  function Piece(fs: Files, lines: seq<string>, path: string, depth: nat, visiting: set<string>,
                 chain: seq<string>): Out
    requires depth <= MAX_DEPTH && lines != []
    decreases MAX_DEPTH - depth, 1, 1
  {
    var line := lines[|lines| - 1];
    var c := Classify(line);
    if c.BadMatch? then Out([], [SkippedMatch(path, TrimSpace(line))], [])
    else if Inert(lines) then NOTHING
    else if c.Include? then Expanded(fs, c.args, TrimSpace(line), depth, visiting, chain)
    else Out([line], [], [])
  }

  function Expanded(fs: Files, args: seq<string>, line: string, depth: nat, visiting: set<string>,
                    chain: seq<string>): Out
    requires depth <= MAX_DEPTH
    decreases MAX_DEPTH - depth, 1, 0
  {
    var kept := Out([line], [], []);
    if depth >= MAX_DEPTH || args == [] || !fs.home || Globbed(fs, args).None? then kept
    else
      var r := Inserted(fs, Dedupe(Globbed(fs, args).value), depth, visiting, chain);
      if r.0 then r.1 else r.1.(lines := [line])
  }

  /** The filtered text of the files one after the other; false when one cannot be read. */
  function Inserted(fs: Files, files: seq<string>, depth: nat, visiting: set<string>, chain: seq<string>): (bool, Out)
    requires depth < MAX_DEPTH
    decreases MAX_DEPTH - depth, 0, |files|
  {
    if files == [] then (true, NOTHING)
    else
      var before := Inserted(fs, files[..|files| - 1], depth, visiting, chain);
      if !before.0 then before
      else
        var f := files[|files| - 1];
        var key := fs.clean(f);
        if key in visiting then (true, Joined(before.1, Out([], [Cycle(key)], [])))
        else match fs.read(f)
          case None => (false, before.1)
          case Some(text) =>
            var inner := Filtered(fs, Lines(text), f, depth + 1, visiting + {key}, chain + [key]);
            (true, Joined(before.1, inner.(chains := [chain + [key]] + inner.chains)))
  }

  function Lenient(fs: Files, text: string, path: string): string {
    Join(Filtered(fs, Lines(text), path, 0, {fs.clean(path)}, [fs.clean(path)]).lines, '\n')
  }

  lemma InsertedNext(fs: Files, files: seq<string>, i: nat, depth: nat, visiting: set<string>, chain: seq<string>)
    requires depth < MAX_DEPTH && i < |files| && Inserted(fs, files[..i], depth, visiting, chain).0
    ensures Inserted(fs, files[..i + 1], depth, visiting, chain) ==
            var before := Inserted(fs, files[..i], depth, visiting, chain).1;
            var key := fs.clean(files[i]);
            if key in visiting then (true, Joined(before, Out([], [Cycle(key)], [])))
            else match fs.read(files[i])
              case None => (false, before)
              case Some(text) => (true, Joined(before, OneFile(fs, files[i], text, depth, visiting, chain)))
  {
    assert files[..i + 1][..i] == files[..i];
  }

  /** What one included file contributes. */
  function OneFile(fs: Files, f: string, text: string, depth: nat, visiting: set<string>, chain: seq<string>): Out
    requires depth < MAX_DEPTH
  {
    var inner := Filtered(fs, Lines(text), f, depth + 1, visiting + {fs.clean(f)}, chain + [fs.clean(f)]);
    inner.(chains := [chain + [fs.clean(f)]] + inner.chains)
  }

  /** `o` has been put out on top of `was`. */
  ghost predicate Emitted(was: Out, o: Out, now: Out) {
    now.lines == was.lines + o.lines && now.warns == was.warns + o.warns && now.chains == was.chains + o.chains
  }

  lemma EmittedMore(was: Out, o: Out, mid: Out, p: Out, now: Out)
    requires Emitted(was, o, mid) && Emitted(mid, p, now)
    ensures Emitted(was, Joined(o, p), now)
  {
  }

  lemma EmittedFile(was: Out, inner: Out, opening: seq<string>, now: Out)
    requires Emitted(was.(chains := was.chains + [opening]), inner, now)
    ensures Emitted(was, inner.(chains := [opening] + inner.chains), now)
  {
  }

  /** The reader after these lines: what it has put out on top of `was`, and whether it is skipping. */
  ghost predicate Halfway(fs: Files, lines: seq<string>, path: string, depth: nat, visiting: set<string>,
                          chain: seq<string>, skipping: bool, was: Out, now: Out) {
    depth <= MAX_DEPTH && skipping == Inert(lines)
      && Emitted(was, Filtered(fs, lines, path, depth, visiting, chain), now)
  }

  lemma HalfwayOn(fs: Files, lines: seq<string>, path: string, depth: nat, visiting: set<string>, chain: seq<string>,
                  skips: bool, was: Out, mid: Out, now: Out)
    requires depth <= MAX_DEPTH && lines != [] && skips == Inert(lines)
    requires Emitted(was, Filtered(fs, lines[..|lines| - 1], path, depth, visiting, chain), mid)
    requires Emitted(mid, Piece(fs, lines, path, depth, visiting, chain), now)
    ensures Halfway(fs, lines, path, depth, visiting, chain, skips, was, now)
  {
    EmittedMore(was, Filtered(fs, lines[..|lines| - 1], path, depth, visiting, chain), mid,
                Piece(fs, lines, path, depth, visiting, chain), now);
  }

  // ----- The filter as it runs -----

  class Reader {
    const fs: Files
    var visiting: set<string>
    var warned: seq<Warning>
    ghost var chains: seq<seq<string>>

    constructor (files: Files)
      ensures fs == files && visiting == {} && warned == [] && chains == []
    {
      fs, visiting, warned, chains := files, {}, [], [];
    }

    method LenientConfig(text: string, path: string) returns (r: string)
      modifies this
      ensures r == Lenient(fs, text, path) && visiting == {fs.clean(path)}
      ensures warned == old(warned) + Filtered(fs, Lines(text), path, 0, {fs.clean(path)}, [fs.clean(path)]).warns
    {
      visiting := {fs.clean(path)};
      var lines := FilterLines(Lines(text), path, 0, [fs.clean(path)]);
      r := Join(lines, '\n');
    }

    method FilterLines(lines: seq<string>, path: string, depth: nat, ghost chain: seq<string>)
      returns (out: seq<string>)
      requires depth <= MAX_DEPTH
      modifies this
      ensures visiting == old(visiting)
      ensures var r := Filtered(fs, lines, path, depth, old(visiting), chain);
        out == r.lines && warned == old(warned) + r.warns && chains == old(chains) + r.chains
      decreases MAX_DEPTH - depth, 1, 0
    {
      out := [];
      var skipping := false;
      var i := 0;
      ghost var was := Out([], warned, chains);
      while i < |lines|
        invariant 0 <= i <= |lines| && visiting == old(visiting)
        invariant Halfway(fs, lines[..i], path, depth, old(visiting), chain, skipping, was, Out(out, warned, chains))
      {
        ghost var mid := Out(out, warned, chains);
        assert lines[..i + 1][i] == lines[i] && lines[..i + 1][..i] == lines[..i];
        out, skipping := FilterLine(out, lines[i], path, depth, skipping, lines[..i + 1], chain);
        HalfwayOn(fs, lines[..i + 1], path, depth, visiting, chain, skipping, was, mid, Out(out, warned, chains));
        i := i + 1;
      }
      assert lines[..|lines|] == lines;
    }

    /** The loop body: what one line adds to `before` and whether the reader skips after it. */
    method FilterLine(before: seq<string>, line: string, path: string, depth: nat, skipping: bool,
                      ghost upTo: seq<string>, ghost chain: seq<string>)
      returns (out: seq<string>, skips: bool)
      requires depth <= MAX_DEPTH && upTo != [] && upTo[|upTo| - 1] == line && skipping == Inert(upTo[..|upTo| - 1])
      modifies this
      ensures visiting == old(visiting) && skips == Inert(upTo)
      ensures Emitted(Out(before, old(warned), old(chains)), Piece(fs, upTo, path, depth, old(visiting), chain),
                      Out(out, warned, chains))
      decreases MAX_DEPTH - depth, 0, 2
    {
      skips, out := skipping, before;
      var trimmed := TrimSpace(line);
      if trimmed == "" || trimmed[0] == '#' {
        if !skipping {
          out := out + [line];
        }
        return;
      }
      var toks := SplitTokens(trimmed);
      ClassifyTokens(line);
      var (kw, args) := SplitKeyword(toks);
      if kw == "host" {
        skips := false;
        out := out + [line];
      } else if kw == "match" {
        if MatchEvaluable(args) {
          skips := false;
          out := out + [line];
        } else {
          skips := true;
          warned := warned + [SkippedMatch(path, trimmed)];
        }
      } else if kw == "include" {
        if !skipping {
          var more := ExpandInclude(args, trimmed, depth, chain);
          out := out + more;
        }
      } else if !skipping {
        out := out + [line];
      }
    }

    method ExpandInclude(args: seq<string>, line: string, depth: nat, ghost chain: seq<string>)
      returns (out: seq<string>)
      requires depth <= MAX_DEPTH
      modifies this
      ensures visiting == old(visiting)
      ensures var r := Expanded(fs, args, line, depth, old(visiting), chain);
        out == r.lines && warned == old(warned) + r.warns && chains == old(chains) + r.chains
      decreases MAX_DEPTH - depth, 0, 1
    {
      if depth >= MAX_DEPTH || args == [] || !fs.home {
        return [line];
      }
      var files: seq<string> := [];
      var i := 0;
      while i < |args|
        invariant 0 <= i <= |args|
        invariant Globbed(fs, args[..i]) == Some(files)
      {
        assert args[..i + 1][..i] == args[..i];
        var ms := fs.glob(Resolve(args[i]));
        if ms.None? {
          GlobStops(fs, args, i + 1);
          return [line];
        }
        files := files + ms.value;
        i := i + 1;
      }
      assert args[..|args|] == args;
      var ok := true;
      ok, out := InsertFiles(Dedupe(files), depth, chain);
      if !ok {
        out := [line];
      }
    }

    method InsertFiles(files: seq<string>, depth: nat, ghost chain: seq<string>) returns (ok: bool, out: seq<string>)
      requires depth < MAX_DEPTH
      modifies this
      ensures visiting == old(visiting)
      ensures var r := Inserted(fs, files, depth, old(visiting), chain);
        ok == r.0 && Emitted(Out([], old(warned), old(chains)), r.1, Out(out, warned, chains))
      decreases MAX_DEPTH - depth, 0, 0
    {
      ok, out := true, [];
      var i := 0;
      ghost var was := Out([], warned, chains);
      while i < |files|
        invariant 0 <= i <= |files| && visiting == old(visiting)
        invariant Inserted(fs, files[..i], depth, old(visiting), chain).0
        invariant Emitted(was, Inserted(fs, files[..i], depth, old(visiting), chain).1, Out(out, warned, chains))
      {
        InsertedNext(fs, files, i, depth, visiting, chain);
        ghost var mid := Out(out, warned, chains);
        ghost var before := Inserted(fs, files[..i], depth, visiting, chain).1;
        var f := files[i];
        var key := fs.clean(f);
        if key in visiting {
          warned := warned + [Cycle(key)];
          EmittedMore(was, before, mid, Out([], [Cycle(key)], []), Out(out, warned, chains));
        } else {
          var data := fs.read(f);
          if data.None? {
            InsertStops(fs, files, i + 1, depth, visiting, chain);
            return false, out;
          }
          ghost var one := OneFile(fs, f, data.value, depth, visiting, chain);
          out := ReadInto(out, f, data.value, depth, chain);
          EmittedMore(was, before, mid, one, Out(out, warned, chains));
        }
        i := i + 1;
      }
      assert files[..|files|] == files;
    }

    /** One file's filtered lines, with the file marked while it is being read. */
    method ReadInto(before: seq<string>, f: string, text: string, depth: nat, ghost chain: seq<string>)
      returns (out: seq<string>)
      requires depth < MAX_DEPTH && fs.clean(f) !in visiting
      modifies this
      ensures visiting == old(visiting)
      ensures Emitted(Out(before, old(warned), old(chains)), OneFile(fs, f, text, depth, old(visiting), chain),
                      Out(out, warned, chains))
      decreases MAX_DEPTH - depth - 1, 2
    {
      var key := fs.clean(f);
      visiting := visiting + {key};
      chains := chains + [chain + [key]];
      ghost var inner := Filtered(fs, Lines(text), f, depth + 1, visiting, chain + [key]);
      var more := FilterLines(Lines(text), f, depth + 1, chain + [key]);
      out := before + more;
      EmittedFile(Out(before, old(warned), old(chains)), inner, chain + [key], Out(out, warned, chains));
      visiting := visiting - {key};
      assert visiting == old(visiting);
    }
  }

  lemma {:induction false} GlobStops(fs: Files, args: seq<string>, i: nat)
    requires i <= |args| && Globbed(fs, args[..i]).None?
    ensures Globbed(fs, args).None?
    decreases |args|
  {
    if i == |args| {
      assert args[..i] == args;
    } else {
      assert args[..|args| - 1][..i] == args[..i];
      GlobStops(fs, args[..|args| - 1], i);
    }
  }

  lemma {:induction false} InsertStops(fs: Files, files: seq<string>, i: nat, depth: nat, visiting: set<string>,
                                       chain: seq<string>)
    requires depth < MAX_DEPTH && i <= |files| && !Inserted(fs, files[..i], depth, visiting, chain).0
    ensures Inserted(fs, files, depth, visiting, chain) == Inserted(fs, files[..i], depth, visiting, chain)
    decreases |files|
  {
    if i == |files| {
      assert files[..i] == files;
    } else {
      assert files[..|files| - 1][..i] == files[..i];
      InsertStops(fs, files[..|files| - 1], i, depth, visiting, chain);
    }
  }

  // ----- Lookup: the first obtained value wins -----

  /** Whether the directives after these lines apply to an alias; `matches` says which Host and
      evaluable Match headers its name matches.  A Match that cannot be evaluated never does. */
  predicate Active(lines: seq<string>, matches: Line -> bool)
    decreases |lines|
  {
    lines == [] ||
    var c := Classify(lines[|lines| - 1]);
    if Header(c) then !c.BadMatch? && matches(c) else Active(lines[..|lines| - 1], matches)
  }

  /** The values of a key in the order in which they are obtained. */
  function Values(lines: seq<string>, matches: Line -> bool, key: string): seq<seq<string>>
    decreases |lines|
  {
    if lines == [] then []
    else
      var before := lines[..|lines| - 1];
      var c := Classify(lines[|lines| - 1]);
      if c.Directive? && c.key == key && Active(before, matches) then Values(before, matches, key) + [c.args]
      else Values(before, matches, key)
  }

  function FirstValue(lines: seq<string>, matches: Line -> bool, key: string): Option<seq<string>> {
    var vs := Values(lines, matches, key);
    if vs == [] then None else Some(vs[0])
  }

  predicate IncludeFree(lines: seq<string>) { forall l | l in lines :: !Classify(l).Include? }

  predicate NoBadMatch(lines: seq<string>) { forall l | l in lines :: !Classify(l).BadMatch? }

  lemma LastLine(lines: seq<string>)
    requires lines != []
    ensures lines[..|lines| - 1] + [lines[|lines| - 1]] == lines
    ensures forall l :: l in lines <==> l in lines[..|lines| - 1] || l == lines[|lines| - 1]
  {
    assert lines[..|lines| - 1] + [lines[|lines| - 1]] == lines;
  }

  function Kinds(lines: seq<string>): seq<Line> { seq(|lines|, i requires 0 <= i < |lines| => Classify(lines[i])) }

  predicate InertKinds(cs: seq<Line>)
    decreases |cs|
  {
    cs != [] && if Header(cs[|cs| - 1]) then cs[|cs| - 1].BadMatch? else InertKinds(cs[..|cs| - 1])
  }

  lemma {:induction false} InertByKinds(lines: seq<string>)
    ensures Inert(lines) == InertKinds(Kinds(lines))
    decreases |lines|
  {
    if lines != [] {
      InertByKinds(lines[..|lines| - 1]);
      assert Kinds(lines)[..|lines| - 1] == Kinds(lines[..|lines| - 1]);
    }
  }

  /** Entry h is an unevaluable Match header and no header follows it. */
  ghost predicate Governs(cs: seq<Line>, h: nat) {
    h < |cs| && cs[h].BadMatch? && forall j :: h < j < |cs| ==> !Header(cs[j])
  }

  lemma {:induction false} InertHasHeader(cs: seq<Line>) returns (h: nat)
    requires InertKinds(cs)
    ensures Governs(cs, h)
    decreases |cs|
  {
    var n := |cs| - 1;
    if Header(cs[n]) {
      h := n;
    } else {
      h := InertHasHeader(cs[..n]);
      forall j | h < j < |cs| ensures !Header(cs[j]) {
        assert j < n ==> cs[..n][j] == cs[j];
      }
    }
  }

  lemma {:induction false} GovernedIsInert(cs: seq<Line>, h: nat)
    requires Governs(cs, h)
    ensures InertKinds(cs)
    decreases |cs|
  {
    if h < |cs| - 1 {
      GovernedIsInert(cs[..|cs| - 1], h);
    }
  }

  /** A line stands in an unevaluable block exactly when the last header up to it is one. */
  lemma InertMeans(lines: seq<string>)
    ensures Inert(lines) <==> exists h: nat :: Governs(Kinds(lines), h)
  {
    InertByKinds(lines);
    if Inert(lines) {
      var h := InertHasHeader(Kinds(lines));
    }
    if h: nat :| Governs(Kinds(lines), h) {
      GovernedIsInert(Kinds(lines), h);
    }
  }

  lemma LookupOneMore(lines: seq<string>, line: string, matches: Line -> bool, key: string)
    ensures var c := Classify(line);
      && Active(lines + [line], matches) == (if Header(c) then !c.BadMatch? && matches(c) else Active(lines, matches))
      && Values(lines + [line], matches, key) ==
         if c.Directive? && c.key == key && Active(lines, matches) then Values(lines, matches, key) + [c.args]
         else Values(lines, matches, key)
  {
    assert (lines + [line])[..|lines|] == lines;
  }

  /** Without Includes a line is kept exactly when it is not inert. */
  lemma FilteredOneMore(fs: Files, lines: seq<string>, path: string, depth: nat, visiting: set<string>,
                        chain: seq<string>)
    requires depth <= MAX_DEPTH && lines != [] && IncludeFree(lines)
    ensures var before := Filtered(fs, lines[..|lines| - 1], path, depth, visiting, chain);
      var r := Filtered(fs, lines, path, depth, visiting, chain);
      && r.lines == (if Inert(lines) then before.lines else before.lines + [lines[|lines| - 1]])
      && r.warns == if Classify(lines[|lines| - 1]).BadMatch?
                    then before.warns + [SkippedMatch(path, TrimSpace(lines[|lines| - 1]))]
                    else before.warns
  {
  }

  /** For every alias and every key, lookup in the filtered lines gives what lookup in the original gives. */
  lemma {:induction false} FilterPreservesMeaning(fs: Files, lines: seq<string>, path: string, depth: nat,
                                                  visiting: set<string>, chain: seq<string>,
                                                  matches: Line -> bool, key: string)
    requires depth <= MAX_DEPTH && IncludeFree(lines)
    ensures var r := Filtered(fs, lines, path, depth, visiting, chain).lines;
      && Values(r, matches, key) == Values(lines, matches, key)
      && (if Inert(lines) then !Active(lines, matches) else Active(r, matches) == Active(lines, matches))
    decreases |lines|
  {
    if lines != [] {
      LastLine(lines);
      var before, line := lines[..|lines| - 1], lines[|lines| - 1];
      FilterPreservesMeaning(fs, before, path, depth, visiting, chain, matches, key);
      FilteredOneMore(fs, lines, path, depth, visiting, chain);
      LookupOneMore(before, line, matches, key);
      LookupOneMore(Filtered(fs, before, path, depth, visiting, chain).lines, line, matches, key);
    }
  }

  /** The output is made of the input's lines in their order. */
  lemma {:induction false} FilterKeepsOrder(fs: Files, lines: seq<string>, path: string, depth: nat,
                                            visiting: set<string>, chain: seq<string>)
    requires depth <= MAX_DEPTH && IncludeFree(lines)
    ensures Subsequence(Filtered(fs, lines, path, depth, visiting, chain).lines, lines)
    decreases |lines|
  {
    if lines != [] {
      LastLine(lines);
      FilterKeepsOrder(fs, lines[..|lines| - 1], path, depth, visiting, chain);
      FilteredOneMore(fs, lines, path, depth, visiting, chain);
      var b := Filtered(fs, lines[..|lines| - 1], path, depth, visiting, chain).lines;
      assert (b + [lines[|lines| - 1]])[..|b|] == b;
    }
  }

  lemma {:induction false} FilterLeavesNoBadMatch(fs: Files, lines: seq<string>, path: string, depth: nat,
                                                  visiting: set<string>, chain: seq<string>)
    requires depth <= MAX_DEPTH && IncludeFree(lines)
    ensures var r := Filtered(fs, lines, path, depth, visiting, chain).lines; IncludeFree(r) && NoBadMatch(r)
    decreases |lines|
  {
    if lines != [] {
      LastLine(lines);
      FilterLeavesNoBadMatch(fs, lines[..|lines| - 1], path, depth, visiting, chain);
      FilteredOneMore(fs, lines, path, depth, visiting, chain);
    }
  }

  /** Text is dropped, and a warning given, exactly when there is a Match header to drop. */
  lemma {:induction false} FilterDropsIffBadMatch(fs: Files, lines: seq<string>, path: string, depth: nat,
                                                  visiting: set<string>, chain: seq<string>)
    requires depth <= MAX_DEPTH && IncludeFree(lines)
    ensures var r := Filtered(fs, lines, path, depth, visiting, chain);
      && (NoBadMatch(lines) ==> !Inert(lines) && r.lines == lines && r.warns == [])
      && (!NoBadMatch(lines) ==> |r.lines| < |lines| && r.warns != [])
    decreases |lines|
  {
    if lines != [] {
      LastLine(lines);
      var before := lines[..|lines| - 1];
      FilterDropsIffBadMatch(fs, before, path, depth, visiting, chain);
      FilteredOneMore(fs, lines, path, depth, visiting, chain);
    }
  }

  predicate Subsequence(a: seq<string>, b: seq<string>)
    decreases |b|
  {
    || a == []
    || (b != [] && a[|a| - 1] == b[|b| - 1] && Subsequence(a[..|a| - 1], b[..|b| - 1]))
    || (b != [] && Subsequence(a, b[..|b| - 1]))
  }

  /** Filtering again changes nothing more. */
  lemma FilterIsIdempotent(fs: Files, lines: seq<string>, path: string, depth: nat, visiting: set<string>,
                           chain: seq<string>)
    requires depth <= MAX_DEPTH && IncludeFree(lines)
    ensures var r := Filtered(fs, lines, path, depth, visiting, chain).lines;
      var again := Filtered(fs, r, path, depth, visiting, chain);
      again.lines == r && again.warns == []
  {
    FilterLeavesNoBadMatch(fs, lines, path, depth, visiting, chain);
    FilterDropsIffBadMatch(fs, Filtered(fs, lines, path, depth, visiting, chain).lines, path, depth, visiting, chain);
  }

  // ----- Includes, over any file system -----

  ghost predicate Clean(lines: seq<string>) { forall l | l in lines :: !Classify(l).BadMatch? && '\n' !in l }

  lemma CleanJoined(a: seq<string>, b: seq<string>)
    requires Clean(a) && Clean(b)
    ensures Clean(a + b)
  {
  }

  /** Whatever the files say, the output holds no Match header that cannot be evaluated. */
  lemma {:induction false} OutputIsClean(fs: Files, lines: seq<string>, path: string, depth: nat, visiting: set<string>,
                                         chain: seq<string>)
    requires depth <= MAX_DEPTH && forall l | l in lines :: '\n' !in l
    ensures Clean(Filtered(fs, lines, path, depth, visiting, chain).lines)
    decreases MAX_DEPTH - depth, 1, |lines|
  {
    if lines != [] {
      LastLine(lines);
      OutputIsClean(fs, lines[..|lines| - 1], path, depth, visiting, chain);
      var line := lines[|lines| - 1];
      var c := Classify(line);
      if c.Include? && !Inert(lines) {
        TrimAgain(line);
        var kept := TrimSpace(line);
        var globbed := Globbed(fs, c.args);
        if depth < MAX_DEPTH && globbed.Some? {
          InsertedIsClean(fs, Dedupe(globbed.value), depth, visiting, chain);
        }
        assert Clean([kept]);
        assert Clean(Expanded(fs, c.args, kept, depth, visiting, chain).lines);
      }
    }
  }

  lemma {:induction false} InsertedIsClean(fs: Files, files: seq<string>, depth: nat, visiting: set<string>,
                                           chain: seq<string>)
    requires depth < MAX_DEPTH
    ensures Clean(Inserted(fs, files, depth, visiting, chain).1.lines)
    decreases MAX_DEPTH - depth, 0, |files|
  {
    if files != [] {
      var n := |files| - 1;
      InsertedIsClean(fs, files[..n], depth, visiting, chain);
      var before := Inserted(fs, files[..n], depth, visiting, chain);
      assert files[..n + 1] == files;
      if before.0 {
        InsertedNext(fs, files, n, depth, visiting, chain);
        var f := files[n];
        if fs.clean(f) !in visiting && fs.read(f).Some? {
          OutputIsClean(fs, Lines(fs.read(f).value), f, depth + 1, visiting + {fs.clean(f)}, chain + [fs.clean(f)]);
          CleanJoined(before.1.lines, OneFile(fs, f, fs.read(f).value, depth, visiting, chain).lines);
        }
      }
    }
  }

  predicate Distinct(c: seq<string>) { forall i, j | 0 <= i < j < |c| :: c[i] != c[j] }

  /** A chain of files including one another that goes on from `chain`, never returns, and is short. */
  predicate Descends(c: seq<string>, chain: seq<string>) { Distinct(c) && chain < c && |c| <= MAX_DEPTH + 1 }

  ghost predicate AllDescend(cs: seq<seq<string>>, chain: seq<string>) { forall c | c in cs :: Descends(c, chain) }

  ghost predicate Marks(visiting: set<string>, chain: seq<string>, depth: nat) {
    Distinct(chain) && |chain| == depth + 1 && forall k :: k in visiting <==> k in chain
  }

  lemma ChainGrows(visiting: set<string>, chain: seq<string>, depth: nat, key: string)
    requires Marks(visiting, chain, depth) && key !in visiting && depth < MAX_DEPTH
    ensures Marks(visiting + {key}, chain + [key], depth + 1) && Descends(chain + [key], chain)
    ensures forall c :: Descends(c, chain + [key]) ==> Descends(c, chain)
  {
  }

  /** No file is ever expanded inside itself, cyclic Includes or not, and no chain exceeds the cap. */
  lemma {:induction false} NothingIncludesItself(fs: Files, lines: seq<string>, path: string, depth: nat,
                                                 visiting: set<string>, chain: seq<string>)
    requires depth <= MAX_DEPTH && Marks(visiting, chain, depth)
    ensures AllDescend(Filtered(fs, lines, path, depth, visiting, chain).chains, chain)
    decreases MAX_DEPTH - depth, 1, |lines|
  {
    if lines != [] {
      NothingIncludesItself(fs, lines[..|lines| - 1], path, depth, visiting, chain);
      var c := Classify(lines[|lines| - 1]);
      if c.Include? && depth < MAX_DEPTH && Globbed(fs, c.args).Some? {
        InsertedDescends(fs, Dedupe(Globbed(fs, c.args).value), depth, visiting, chain);
      }
      if c.Include? {
        assert AllDescend(Expanded(fs, c.args, TrimSpace(lines[|lines| - 1]), depth, visiting, chain).chains, chain);
      }
      assert AllDescend(Piece(fs, lines, path, depth, visiting, chain).chains, chain);
    }
  }

  lemma {:induction false} InsertedDescends(fs: Files, files: seq<string>, depth: nat, visiting: set<string>,
                                            chain: seq<string>)
    requires depth < MAX_DEPTH && Marks(visiting, chain, depth)
    ensures AllDescend(Inserted(fs, files, depth, visiting, chain).1.chains, chain)
    decreases MAX_DEPTH - depth, 0, |files|
  {
    if files != [] {
      InsertedDescends(fs, files[..|files| - 1], depth, visiting, chain);
      var f := files[|files| - 1];
      var key := fs.clean(f);
      if key !in visiting && fs.read(f).Some? {
        ChainGrows(visiting, chain, depth, key);
        NothingIncludesItself(fs, Lines(fs.read(f).value), f, depth + 1, visiting + {key}, chain + [key]);
      }
    }
  }

  // ----- The same for whole texts -----

  /** The lines of the rewritten text, an empty text being one empty line. */
  lemma LenientLines(fs: Files, text: string, path: string)
    ensures var out := Filtered(fs, Lines(text), path, 0, {fs.clean(path)}, [fs.clean(path)]).lines;
      Lines(Lenient(fs, text, path)) == (if out == [] then [""] else out) && Clean(out)
  {
    OutputIsClean(fs, Lines(text), path, 0, {fs.clean(path)}, [fs.clean(path)]);
    var out := Filtered(fs, Lines(text), path, 0, {fs.clean(path)}, [fs.clean(path)]).lines;
    if out != [] { SplitOfJoin(out, '\n'); }
  }

  /** The decoder never sees a Match block it cannot evaluate, whatever is included. */
  lemma LenientIsDecodable(fs: Files, text: string, path: string)
    ensures NoBadMatch(Lines(Lenient(fs, text, path)))
  {
    LenientLines(fs, text, path);
    assert Classify("") == Plain;
  }

  lemma LenientPreservesMeaning(fs: Files, text: string, path: string, matches: Line -> bool, key: string)
    requires IncludeFree(Lines(text))
    ensures var after := Lines(Lenient(fs, text, path));
      && Values(after, matches, key) == Values(Lines(text), matches, key)
      && FirstValue(after, matches, key) == FirstValue(Lines(text), matches, key)
  {
    LenientLines(fs, text, path);
    FilterPreservesMeaning(fs, Lines(text), path, 0, {fs.clean(path)}, [fs.clean(path)], matches, key);
    assert Classify("") == Plain;
    assert Values([""], matches, key) == Values([""][..0], matches, key);
  }

  /** Text without such blocks comes back untouched, and any text without Includes does the second time. */
  lemma LenientIsIdempotent(fs: Files, text: string, path: string)
    requires IncludeFree(Lines(text))
    ensures NoBadMatch(Lines(text)) ==> Lenient(fs, text, path) == text
    ensures Lenient(fs, Lenient(fs, text, path), path) == Lenient(fs, text, path)
  {
    var key := fs.clean(path);
    var once := Lenient(fs, text, path);
    var out := Filtered(fs, Lines(text), path, 0, {key}, [key]).lines;
    FilterLeavesNoBadMatch(fs, Lines(text), path, 0, {key}, [key]);
    FilterDropsIffBadMatch(fs, Lines(text), path, 0, {key}, [key]);
    JoinOfSplit(text, '\n');
    LenientLines(fs, text, path);
    assert Classify("") == Plain;
    assert IncludeFree(Lines(once)) && NoBadMatch(Lines(once));
    FilterDropsIffBadMatch(fs, Lines(once), path, 0, {key}, [key]);
    JoinOfSplit(once, '\n');
  }
}
