/** What the lenient reader (internal/config/sshmatch.go) makes of the words of a line, and what
    becomes of each kind of line in its output. */
module SshWords {

  import opened SshMatch
  import opened Text
  import opened Wrappers

  // ----- Words -----

  predicate Gap(g: string) { g != "" && forall i | 0 <= i < |g| :: g[i] == ' ' || g[i] == '\t' }

  /** A word that needs no quotes. */
  predicate PlainWord(w: string) {
    w != "" && w[0] != '#' && ' ' !in w && '\t' !in w && '"' !in w
  }

  lemma {:induction false} FedGap(x: Lexer, g: string)
    requires (g == "" || Gap(g)) && !x.inQuote && !x.ended && !x.haveTok
    ensures Fed(x, g) == x
    decreases |g|
  {
    if g != "" { FedGap(x, g[..|g| - 1]); }
  }

  lemma FedBreak(x: Lexer, g: string)
    requires Gap(g) && !x.inQuote && !x.ended && x.haveTok
    ensures Fed(x, g) == x.(toks := x.toks + [x.cur], cur := "", haveTok := false)
  {
    var y := x.(toks := x.toks + [x.cur], cur := "", haveTok := false);
    assert g == [g[0]] + g[1..] && [g[0]][..0] == "";
    FedAppend(x, [g[0]], g[1..]);
    assert Fed(x, [g[0]]) == Feed(x, g[0]);
    FedGap(y, g[1..]);
  }

  lemma {:induction false} FedPlain(x: Lexer, w: string)
    requires w != "" && ' ' !in w && '\t' !in w && '"' !in w && !x.inQuote && !x.ended && (w[0] != '#' || x.haveTok)
    ensures Fed(x, w) == x.(cur := x.cur + w, haveTok := true)
    decreases |w|
  {
    var before, c := w[..|w| - 1], w[|w| - 1];
    assert before + [c] == w;
    if before != "" {
      FedPlain(x, before);
      assert x.cur + before + [c] == x.cur + w;
    }
  }

  /** After s the lexer stands at the end of the last of these words. */
  predicate InLastWord(s: string, ws: seq<string>) {
    ws != [] && Fed(FRESH, s) == Lexer(ws[..|ws| - 1], ws[|ws| - 1], false, true, false)
  }

  lemma {:induction false} SpreadLexes(ws: seq<string>, gaps: seq<string>)
    requires ws != [] && |gaps| >= |ws|
    requires (forall w | w in ws :: PlainWord(w)) && forall g | g in gaps :: Gap(g)
    ensures InLastWord(Spread(ws, gaps), ws)
    decreases |ws|
  {
    var n := |ws| - 1;
    assert PlainWord(ws[n]) by { assert ws[n] in ws; }
    if n == 0 {
      FedPlain(FRESH, ws[0]);
      assert "" + ws[0] == ws[0];
    } else {
      var before := ws[..n];
      SpreadLexes(before, gaps);
      var x := Fed(FRESH, Spread(before, gaps));
      assert before[..n - 1] + [before[n - 1]] == before;
      FedAppend(FRESH, Spread(before, gaps), gaps[n]);
      FedBreak(x, gaps[n]);
      FedAppend(FRESH, Spread(before, gaps) + gaps[n], ws[n]);
      FedPlain(Lexer(before, "", false, false, false), ws[n]);
      assert "" + ws[n] == ws[n];
    }
  }

  /** Words without blanks and quotes, set apart by any blanks and tabs, are its tokens, and a comment
      behind them is not. */
  lemma PlainWordsAreTokens(ws: seq<string>, gaps: seq<string>, comment: string)
    requires ws != [] && |gaps| > |ws|
    requires (forall w | w in ws :: PlainWord(w)) && forall g | g in gaps :: Gap(g)
    ensures Tokens(Spread(ws, gaps)) == ws
    ensures Tokens(Spread(ws, gaps) + gaps[|ws|] + ("#" + comment)) == ws
  {
    SpreadLexes(ws, gaps);
    assert Gap(gaps[|ws|]) by { assert gaps[|ws|] in gaps; }
    WordsEnd(Spread(ws, gaps), ws, gaps[|ws|], comment);
  }

  lemma WordsEnd(s: string, ws: seq<string>, gap: string, comment: string)
    requires InLastWord(s, ws) && Gap(gap)
    ensures Tokens(s) == ws && Tokens(s + gap + ("#" + comment)) == ws
  {
    assert ws[..|ws| - 1] + [ws[|ws| - 1]] == ws;
    FedAppend(FRESH, s, gap);
    FedBreak(Fed(FRESH, s), gap);
    FedAppend(FRESH, s + gap, "#" + comment);
    FedComment(Lexer(ws, "", false, false, false), comment);
  }

  lemma FedComment(x: Lexer, comment: string)
    requires !x.inQuote && !x.haveTok && !x.ended
    ensures Fed(x, "#" + comment) == x.(ended := true)
  {
    var s := "#" + comment;
    assert s[..1] == "#" && s[..1][..0] == "";
    assert Fed(x, s[..1]) == Feed(x, '#');
    FedEnded(x, s, 1);
  }

  // ----- Keywords -----

  /** A line that has a token is neither blank nor a comment. */
  lemma TokensMeanDirective(s: string)
    requires Tokens(s) != []
    ensures s != "" && s[0] != '#'
  {
    if s != "" && s[0] == '#' {
      assert s[..1][..0] == "" && s[..1][0] == s[0];
      assert Fed(FRESH, s[..1]) == Feed(FRESH, '#');
      FedEnded(FRESH, s, 1);
    }
  }

  /** `Keyword=value` reads as `Keyword value`, and `Keyword=` as `Keyword`. */
  lemma EqualsReadsAsBlank(k: string, v: string, rest: seq<string>)
    requires '=' !in k
    ensures SplitKeyword([k + "=" + v] + rest) == SplitKeyword([k] + (if v == "" then [] else [v]) + rest)
  {
    var t := k + "=" + v;
    assert t[|k|] == '=' && forall j | 0 <= j < |k| :: t[j] == k[j];
    assert IndexOf(t, '=') == |k|;
    assert t[..|k|] == k && t[|k| + 1..] == v;
    var plain := [k] + (if v == "" then [] else [v]) + rest;
    assert plain[1..] == (if v == "" then rest else [v] + rest);
    assert ([t] + rest)[1..] == rest;
  }

  /** The keyword of a first token: what stands before an equals sign, in lower case. */
  predicate Is(t: string, kw: string) { ToLower(t) == kw || kw + "=" <= ToLower(t) }

  lemma FirstEquals(l: string, kw: string, i: nat)
    requires i < |l| && l[i] == '=' && '=' !in l[..i] && '=' !in kw
    ensures l != kw && (kw + "=" <= l <==> l[..i] == kw)
  {
    assert l != kw by { assert l[i] in l; }
    var p := kw + "=";
    assert p[|kw|] == '=' && forall k | 0 <= k < |kw| :: p[k] == kw[k] && kw[k] in kw;
    assert forall k | 0 <= k < i :: l[k] in l[..i];
    assert l[..i + 1] == l[..i] + "=";
  }

  lemma KeywordIs(t: string, rest: seq<string>, kw: string)
    requires '=' !in kw
    ensures SplitKeyword([t] + rest).0 == kw <==> Is(t, kw)
  {
    var i := IndexOf(t, '=');
    var l := ToLower(t);
    if i >= 0 {
      assert forall j | 0 <= j < i :: l[j] != '=';
      assert ToLower(t[..i]) == l[..i];
      FirstEquals(l, kw, i);
    } else {
      assert forall j | 0 <= j < |t| :: l[j] != '=';
      assert (kw + "=")[|kw|] == '=';
    }
  }

  const HOST := "host"
  const MATCH := "match"
  const INCLUDE := "include"
  const ALL := "all"

  /** Whether the line is a directive with that keyword, in any case. */
  predicate Has(line: string, kw: string) {
    var toks := Tokens(TrimSpace(line));
    toks != [] && Is(toks[0], kw)
  }

  /** A line opens a block exactly if its keyword is Host or Match, and names files exactly if it is
      Include. */
  lemma KindIsByKeyword(line: string)
    ensures Classify(line).Host? <==> Has(line, "host")
    ensures Classify(line).Match? || Classify(line).BadMatch? <==> Has(line, "match")
    ensures Classify(line).Include? <==> Has(line, "include")
  {
    var toks := Tokens(TrimSpace(line));
    if toks != [] {
      TokensMeanDirective(TrimSpace(line));
      assert [toks[0]] + toks[1..] == toks;
      KeywordIs(toks[0], toks[1..], HOST);
      KeywordIs(toks[0], toks[1..], MATCH);
      KeywordIs(toks[0], toks[1..], INCLUDE);
    }
  }

  // ----- Match headers -----

  /** One of the nine words that begin a criterion, in any case. */
  predicate CriterionWord(w: string) {
    var l := ToLower(w);
    || l == "all" || l == "canonical" || l == "exec" || l == "final" || l == "host" || l == "localuser"
    || l == "originalhost" || l == "rdomain" || l == "user"
  }

  /** The criteria that can be evaluated: `all` alone, or `host` with patterns none of which is a
      criterion word; `all` may be followed by other words. */
  predicate Readable(args: seq<string>) {
    && args != []
    && (forall i | 1 <= i < |args| :: !CriterionWord(args[i]))
    && (ToLower(args[0]) == "all" || (ToLower(args[0]) == "host" && |args| >= 2))
  }

  lemma CriterionWords(w: string)
    ensures CriterionWord(w) <==> ToLower(w) in CRITERIA
  {
  }

  lemma ReadableIs(args: seq<string>)
    ensures Readable(args) <==> MatchEvaluable(args)
  {
    if args != [] {
      forall i | 1 <= i < |args| ensures CriterionWord(args[i]) <==> ToLower(args[i]) in CRITERIA {
        CriterionWords(args[i]);
      }
      if HasCriterionWord(args[1..]) {
        var a :| a in args[1..] && ToLower(a) in CRITERIA;
        var i :| 1 <= i < |args| && args[i] == a;
        assert CriterionWord(args[i]);
      } else {
        forall i | 1 <= i < |args| ensures !CriterionWord(args[i]) {
          assert args[i] in args[1..];
        }
      }
    }
  }

  /** A Match header is one portato can evaluate exactly if its criteria are `all` or `host` with
      patterns, and no criterion word comes after. */
  lemma MatchIsKeptIff(line: string, toks: seq<string>)
    requires Tokens(TrimSpace(line)) == toks && toks != [] && ToLower(toks[0]) == "match"
    ensures Classify(line) == if Readable(toks[1..]) then Match(toks[1..]) else BadMatch
  {
    TokensMeanDirective(TrimSpace(line));
    assert '=' !in toks[0] by {
      forall j | 0 <= j < |toks[0]| ensures toks[0][j] != '=' {
        assert ToLower(toks[0])[j] == MATCH[j];
      }
    }
    ReadableIs(toks[1..]);
  }

  // ----- What comes out -----

  lemma {:induction false} FilteredAppend(fs: Files, before: seq<string>, line: string, path: string, depth: nat,
                                          visiting: set<string>, chain: seq<string>)
    requires depth <= MAX_DEPTH
    ensures Filtered(fs, before + [line], path, depth, visiting, chain)
      == Joined(Filtered(fs, before, path, depth, visiting, chain),
                Piece(fs, before + [line], path, depth, visiting, chain))
    ensures Inert(before + [line]) == if Header(Classify(line)) then Classify(line).BadMatch? else Inert(before)
  {
    assert (before + [line])[..|before|] == before;
  }

  lemma UnreadableHeaderIsDropped(fs: Files, before: seq<string>, line: string, path: string, depth: nat,
                                  visiting: set<string>, chain: seq<string>)
    requires depth <= MAX_DEPTH
    requires var toks := Tokens(TrimSpace(line));
      toks != [] && ToLower(toks[0]) == "match" && !Readable(toks[1..])
    ensures Inert(before + [line])
    ensures Filtered(fs, before + [line], path, depth, visiting, chain)
      == Joined(Filtered(fs, before, path, depth, visiting, chain), Out([], [SkippedMatch(path, TrimSpace(line))], []))
  {
    MatchIsKeptIff(line, Tokens(TrimSpace(line)));
    FilteredAppend(fs, before, line, path, depth, visiting, chain);
  }

  lemma InertLineIsDropped(fs: Files, before: seq<string>, line: string, path: string, depth: nat,
                           visiting: set<string>, chain: seq<string>)
    requires depth <= MAX_DEPTH && Inert(before) && !Has(line, "host") && !Has(line, "match")
    ensures Inert(before + [line])
    ensures Filtered(fs, before + [line], path, depth, visiting, chain)
      == Filtered(fs, before, path, depth, visiting, chain)
  {
    KindIsByKeyword(line);
    FilteredAppend(fs, before, line, path, depth, visiting, chain);
  }

  /** A Match header that cannot be evaluated is dropped with all that follows it up to the next Host
      or Match line, Includes as well, and warned of; nothing else is touched. */
  lemma {:induction false} UnreadableBlockIsDropped(fs: Files, before: seq<string>, line: string, body: seq<string>,
                                                    path: string, depth: nat, visiting: set<string>, chain: seq<string>)
    requires depth <= MAX_DEPTH
    requires var toks := Tokens(TrimSpace(line));
      toks != [] && ToLower(toks[0]) == "match" && !Readable(toks[1..])
    requires forall l | l in body :: !Has(l, "host") && !Has(l, "match")
    ensures Inert(before + [line] + body)
    ensures Filtered(fs, before + [line] + body, path, depth, visiting, chain)
      == Joined(Filtered(fs, before, path, depth, visiting, chain), Out([], [SkippedMatch(path, TrimSpace(line))], []))
    decreases |body|
  {
    if body == [] {
      assert before + [line] + body == before + [line];
      UnreadableHeaderIsDropped(fs, before, line, path, depth, visiting, chain);
    } else {
      var less, last := body[..|body| - 1], body[|body| - 1];
      UnreadableBlockIsDropped(fs, before, line, less, path, depth, visiting, chain);
      assert last in body;
      InertLineIsDropped(fs, before + [line] + less, last, path, depth, visiting, chain);
      assert before + [line] + less + [last] == before + [line] + body;
    }
  }

  /** Every other header comes out as it went in, and ends the skipping. */
  lemma ReadableHeaderIsKept(fs: Files, before: seq<string>, line: string, path: string, depth: nat,
                             visiting: set<string>, chain: seq<string>)
    requires depth <= MAX_DEPTH
    requires var toks := Tokens(TrimSpace(line));
      Has(line, "host") || (toks != [] && ToLower(toks[0]) == "match" && Readable(toks[1..]))
    ensures !Inert(before + [line])
    ensures Filtered(fs, before + [line], path, depth, visiting, chain)
      == Joined(Filtered(fs, before, path, depth, visiting, chain), Out([line], [], []))
  {
    if Has(line, HOST) { KindIsByKeyword(line); } else { MatchIsKeptIff(line, Tokens(TrimSpace(line))); }
    FilteredAppend(fs, before, line, path, depth, visiting, chain);
  }

  /** So does every other line outside a dropped block that is not an Include. */
  lemma OtherLineIsKept(fs: Files, before: seq<string>, line: string, path: string, depth: nat,
                        visiting: set<string>, chain: seq<string>)
    requires depth <= MAX_DEPTH && !Inert(before)
    requires !Has(line, "host") && !Has(line, "match") && !Has(line, "include")
    ensures !Inert(before + [line])
    ensures Filtered(fs, before + [line], path, depth, visiting, chain)
      == Joined(Filtered(fs, before, path, depth, visiting, chain), Out([line], [], []))
  {
    KindIsByKeyword(line);
    FilteredAppend(fs, before, line, path, depth, visiting, chain);
  }

  // ----- Includes that stay -----

  lemma {:induction false} BadPattern(fs: Files, args: seq<string>, i: nat)
    requires i < |args| && fs.glob(Resolve(args[i])).None?
    ensures Globbed(fs, args).None?
  {
    assert args[..i + 1][..i] == args[..i];
    GlobStops(fs, args, i + 1);
  }

  lemma {:induction false} UnreadableFile(fs: Files, files: seq<string>, f: string, depth: nat, visiting: set<string>,
                                          chain: seq<string>)
    requires depth < MAX_DEPTH && f in files && fs.clean(f) !in visiting && fs.read(f).None?
    ensures !Inserted(fs, files, depth, visiting, chain).0
  {
    var i :| 0 <= i < |files| && files[i] == f;
    if Inserted(fs, files[..i], depth, visiting, chain).0 {
      InsertedNext(fs, files, i, depth, visiting, chain);
      InsertStops(fs, files, i + 1, depth, visiting, chain);
    } else {
      InsertStops(fs, files, i, depth, visiting, chain);
    }
  }

  /** Why an Include is left for the decoder to complain about: it is nested five deep, names nothing,
      no home directory is known, a pattern is bad, or a file it names cannot be read. */
  ghost predicate CannotExpand(fs: Files, args: seq<string>, depth: nat, visiting: set<string>) {
    || depth >= 5 || args == [] || !fs.home
    || (exists i | 0 <= i < |args| :: fs.glob(Resolve(args[i])).None?)
    || (Globbed(fs, args).Some? && exists f | f in Globbed(fs, args).value ::
      fs.clean(f) !in visiting && fs.read(f).None?)
  }

  lemma StaysWhenStuck(fs: Files, args: seq<string>, line: string, depth: nat, visiting: set<string>,
                       chain: seq<string>)
    requires depth <= MAX_DEPTH && CannotExpand(fs, args, depth, visiting)
    ensures Expanded(fs, args, line, depth, visiting, chain).lines == [line]
  {
    if depth < 5 && args != [] && fs.home {
      if i :| 0 <= i < |args| && fs.glob(Resolve(args[i])).None? {
        BadPattern(fs, args, i);
      } else if Globbed(fs, args).Some? {
        var f :| f in Globbed(fs, args).value && fs.clean(f) !in visiting && fs.read(f).None?;
        UnreadableFile(fs, Dedupe(Globbed(fs, args).value), f, depth, visiting, chain);
      }
    }
  }

  /** An Include outside a dropped block that cannot be expanded comes out trimmed, and nothing of its
      files does. */
  lemma StuckIncludeIsKept(fs: Files, before: seq<string>, line: string, path: string, depth: nat,
                           visiting: set<string>, chain: seq<string>)
    requires depth <= MAX_DEPTH && !Inert(before) && Classify(line).Include?
    requires CannotExpand(fs, Classify(line).args, depth, visiting)
    ensures Filtered(fs, before + [line], path, depth, visiting, chain).lines
      == Filtered(fs, before, path, depth, visiting, chain).lines + [TrimSpace(line)]
  {
    FilteredAppend(fs, before, line, path, depth, visiting, chain);
    StaysWhenStuck(fs, Classify(line).args, TrimSpace(line), depth, visiting, chain);
  }

  /** Where an Include looks: a path from the root as it is, one from `~/` under the home directory,
      any other under the directory of the configuration. */
  lemma IncludePaths(rest: string, other: string)
    requires !("/" <= other) && !("~/" <= other)
    ensures Resolve("/" + rest) == Absolute("/" + rest)
    ensures Resolve("~/" + rest) == InHome(rest) && Resolve(other) == InSsh(other)
  {
    assert ("~/" + rest)[..2] == "~/" && ("~/" + rest)[2..] == rest;
    if other != "" { assert [other[0]] <= other; }
    assert |other| >= 2 && other[..2] == "~/" ==> "~/" <= other;
  }
}
