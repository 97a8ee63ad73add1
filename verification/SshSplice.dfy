/** The lenient ssh_config reader (internal/config/sshmatch.go) against the text with its included files
    put in place: the filter runs on each file by itself, and lookup must not notice. */
module SshSplice {

  import opened SshMatch
  import opened Text
  import opened Wrappers

  /** Lookup that starts in a block that applies or not. */
  predicate ActiveFrom(act: bool, lines: seq<string>, matches: Line -> bool)
    decreases |lines|
  {
    if lines == [] then act
    else
      var c := Classify(lines[|lines| - 1]);
      if Header(c) then !c.BadMatch? && matches(c) else ActiveFrom(act, lines[..|lines| - 1], matches)
  }

  function ValuesFrom(act: bool, lines: seq<string>, matches: Line -> bool, key: string): seq<seq<string>>
    decreases |lines|
  {
    if lines == [] then []
    else
      var before := lines[..|lines| - 1];
      var c := Classify(lines[|lines| - 1]);
      ValuesFrom(act, before, matches, key)
      + if c.Directive? && c.key == key && ActiveFrom(act, before, matches) then [c.args] else []
  }

  lemma {:induction false} FromTheStart(lines: seq<string>, matches: Line -> bool, key: string)
    ensures ActiveFrom(true, lines, matches) == Active(lines, matches)
    ensures ValuesFrom(true, lines, matches, key) == Values(lines, matches, key)
    decreases |lines|
  {
    if lines != [] { FromTheStart(lines[..|lines| - 1], matches, key); }
  }

  lemma {:induction false} FromConcat(act: bool, a: seq<string>, b: seq<string>, matches: Line -> bool, key: string)
    ensures ActiveFrom(act, a + b, matches) == ActiveFrom(ActiveFrom(act, a, matches), b, matches)
    ensures ValuesFrom(act, a + b, matches, key)
      == ValuesFrom(act, a, matches, key) + ValuesFrom(ActiveFrom(act, a, matches), b, matches, key)
    decreases |b|
  {
    if b == [] {
      assert a + b == a;
    } else {
      assert (a + b)[..|a + b| - 1] == a + b[..|b| - 1];
      FromConcat(act, a, b[..|b| - 1], matches, key);
    }
  }

  /** The lines with every Include replaced by the lines of its files, nothing dropped; the Includes that
      stay are those the filter keeps as they are. */
  function Spliced(fs: Files, lines: seq<string>, depth: nat, visiting: set<string>): seq<string>
    requires depth <= MAX_DEPTH
    decreases MAX_DEPTH - depth, 2, |lines|
  {
    if lines == [] then []
    else Spliced(fs, lines[..|lines| - 1], depth, visiting) + SplicedLine(fs, lines[|lines| - 1], depth, visiting)
  }

  function SplicedLine(fs: Files, line: string, depth: nat, visiting: set<string>): seq<string>
    requires depth <= MAX_DEPTH
    decreases MAX_DEPTH - depth, 1, 0
  {
    var c := Classify(line);
    if !c.Include? then [line]
    else if !Expands(fs, c.args, depth) then [TrimSpace(line)]
    else match SplicedFiles(fs, Dedupe(Globbed(fs, c.args).value), depth, visiting)
      case None => [TrimSpace(line)]
      case Some(ls) => ls
  }

  predicate Expands(fs: Files, args: seq<string>, depth: nat) {
    depth < MAX_DEPTH && args != [] && fs.home && Globbed(fs, args).Some?
  }

  function SplicedFiles(fs: Files, files: seq<string>, depth: nat, visiting: set<string>): Option<seq<string>>
    requires depth < MAX_DEPTH
    decreases MAX_DEPTH - depth, 0, |files|
  {
    if files == [] then Some([])
    else match SplicedFiles(fs, files[..|files| - 1], depth, visiting)
      case None => None
      case Some(before) =>
        var f := files[|files| - 1];
        if fs.clean(f) in visiting then Some(before)
        else match fs.read(f)
          case None => None
          case Some(text) => Some(before + Spliced(fs, Lines(text), depth + 1, visiting + {fs.clean(f)}))
  }

  predicate HeaderFree(lines: seq<string>) { forall l | l in lines :: !Header(Classify(l)) }

  /** An Include in a block that is dropped brings no header, and a file included elsewhere does not end
      in such a block. */
  predicate Tame(fs: Files, lines: seq<string>, depth: nat, visiting: set<string>)
    requires depth <= MAX_DEPTH
    decreases MAX_DEPTH - depth, 2, |lines|
  {
    lines == []
    || (&& Tame(fs, lines[..|lines| - 1], depth, visiting)
        && var line := lines[|lines| - 1];
           Classify(line).Include? ==>
             if Inert(lines) then HeaderFree(SplicedLine(fs, line, depth, visiting))
             else Expands(fs, Classify(line).args, depth) ==>
               TameFiles(fs, Dedupe(Globbed(fs, Classify(line).args).value), depth, visiting))
  }

  predicate TameFiles(fs: Files, files: seq<string>, depth: nat, visiting: set<string>)
    requires depth < MAX_DEPTH
    decreases MAX_DEPTH - depth, 0, |files|
  {
    files == []
    || (&& TameFiles(fs, files[..|files| - 1], depth, visiting)
        && var f := files[|files| - 1];
           fs.clean(f) !in visiting && fs.read(f).Some? ==>
             && !Inert(Lines(fs.read(f).value))
             && Tame(fs, Lines(fs.read(f).value), depth + 1, visiting + {fs.clean(f)}))
  }

  /** Two texts read the same from any start, the second ending in a dropped block if `inert`. */
  ghost predicate ReadAlike(r: seq<string>, s: seq<string>, inert: bool, act: bool, matches: Line -> bool,
                            key: string) {
    && ValuesFrom(act, r, matches, key) == ValuesFrom(act, s, matches, key)
    && if inert then !ActiveFrom(act, s, matches) else ActiveFrom(act, r, matches) == ActiveFrom(act, s, matches)
  }

  lemma AlikeOn(r: seq<string>, s: seq<string>, r': seq<string>, s': seq<string>, inert: bool, act: bool,
                matches: Line -> bool, key: string)
    requires ReadAlike(r, s, false, act, matches, key)
    requires ReadAlike(r', s', inert, ActiveFrom(act, r, matches), matches, key)
    ensures ReadAlike(r + r', s + s', inert, act, matches, key)
  {
    FromConcat(act, r, r', matches, key);
    FromConcat(act, s, s', matches, key);
  }

  /** What stands in a block that does not apply, and opens none, adds nothing. */
  lemma {:induction false} DeadLines(lines: seq<string>, matches: Line -> bool, key: string)
    requires HeaderFree(lines)
    ensures !ActiveFrom(false, lines, matches) && ValuesFrom(false, lines, matches, key) == []
    decreases |lines|
  {
    if lines != [] {
      LastLine(lines);
      DeadLines(lines[..|lines| - 1], matches, key);
    }
  }

  lemma DeadEnd(r: seq<string>, s: seq<string>, more: seq<string>, act: bool, matches: Line -> bool, key: string)
    requires ReadAlike(r, s, true, act, matches, key) && HeaderFree(more)
    ensures ReadAlike(r + [], s + more, true, act, matches, key)
  {
    DeadLines(more, matches, key);
    FromConcat(act, s, more, matches, key);
    assert r + [] == r;
  }

  /** A header brings both texts into one state; an unevaluable one is left out of the first. */
  lemma HeaderAlike(r: seq<string>, s: seq<string>, line: string, inert: bool, act: bool, matches: Line -> bool,
                    key: string)
    requires ReadAlike(r, s, inert, act, matches, key) && Header(Classify(line))
    ensures var bad := Classify(line).BadMatch?;
      ReadAlike(r + (if bad then [] else [line]), s + [line], bad, act, matches, key)
  {
    FromConcat(act, r, [line], matches, key);
    FromConcat(act, s, [line], matches, key);
    assert [line][..0] == [];
    assert r + [] == r;
  }

  lemma SameAlike(more: seq<string>, act: bool, matches: Line -> bool, key: string)
    ensures ReadAlike(more, more, false, act, matches, key)
  {
  }

  /** For every alias and key, lookup in the filtered lines gives what lookup in the lines with the
      included files put in place gives. */
  lemma {:induction false} FilterPreservesSplicedMeaning(fs: Files, lines: seq<string>, path: string, depth: nat,
                                                         visiting: set<string>, chain: seq<string>, act: bool,
                                                         matches: Line -> bool, key: string)
    requires depth <= MAX_DEPTH && Tame(fs, lines, depth, visiting)
    ensures ReadAlike(Filtered(fs, lines, path, depth, visiting, chain).lines, Spliced(fs, lines, depth, visiting),
                      Inert(lines), act, matches, key)
    decreases MAX_DEPTH - depth, 2, |lines|
  {
    if lines != [] {
      var before, line := lines[..|lines| - 1], lines[|lines| - 1];
      var c := Classify(line);
      FilterPreservesSplicedMeaning(fs, before, path, depth, visiting, chain, act, matches, key);
      var r, s := Filtered(fs, before, path, depth, visiting, chain).lines, Spliced(fs, before, depth, visiting);
      if Header(c) {
        HeaderAlike(r, s, line, Inert(before), act, matches, key);
      } else if Inert(lines) {
        DeadEnd(r, s, SplicedLine(fs, line, depth, visiting), act, matches, key);
      } else {
        var a := ActiveFrom(act, r, matches);
        PieceAlike(fs, lines, path, depth, visiting, chain, a, matches, key);
        AlikeOn(r, s, Piece(fs, lines, path, depth, visiting, chain).lines, SplicedLine(fs, line, depth, visiting),
                false, act, matches, key);
      }
    }
  }

  /** A line outside dropped blocks that is no header. */
  lemma PieceAlike(fs: Files, lines: seq<string>, path: string, depth: nat, visiting: set<string>, chain: seq<string>,
                   act: bool, matches: Line -> bool, key: string)
    requires depth <= MAX_DEPTH && lines != [] && !Inert(lines) && !Header(Classify(lines[|lines| - 1]))
    requires Tame(fs, lines, depth, visiting)
    ensures ReadAlike(Piece(fs, lines, path, depth, visiting, chain).lines,
                      SplicedLine(fs, lines[|lines| - 1], depth, visiting), false, act, matches, key)
    decreases MAX_DEPTH - depth, 1, 0
  {
    var line := lines[|lines| - 1];
    var c := Classify(line);
    if c.Include? && Expands(fs, c.args, depth) {
      FilesAlike(fs, Dedupe(Globbed(fs, c.args).value), depth, visiting, chain, act, matches, key);
      SameAlike([TrimSpace(line)], act, matches, key);
    } else {
      SameAlike(SplicedLine(fs, line, depth, visiting), act, matches, key);
    }
  }

  /** The files' contribution to the filtered lines and to the spliced ones. */
  ghost predicate FilesReadAlike(fs: Files, files: seq<string>, depth: nat, visiting: set<string>, chain: seq<string>,
                                 act: bool, matches: Line -> bool, key: string)
    requires depth < MAX_DEPTH
  {
    var r := Inserted(fs, files, depth, visiting, chain);
    var s := SplicedFiles(fs, files, depth, visiting);
    (r.0 <==> s.Some?) && (r.0 ==> ReadAlike(r.1.lines, s.value, false, act, matches, key))
  }

  /** One more file that adds nothing, or cannot be read. */
  lemma NoMoreFile(fs: Files, files: seq<string>, depth: nat, visiting: set<string>, chain: seq<string>, act: bool,
                   matches: Line -> bool, key: string)
    requires depth < MAX_DEPTH && files != []
    requires FilesReadAlike(fs, files[..|files| - 1], depth, visiting, chain, act, matches, key)
    requires var f := files[|files| - 1];
      || !Inserted(fs, files[..|files| - 1], depth, visiting, chain).0
      || fs.clean(f) in visiting || fs.read(f).None?
    ensures FilesReadAlike(fs, files, depth, visiting, chain, act, matches, key)
  {
    var ls := Inserted(fs, files[..|files| - 1], depth, visiting, chain).1.lines;
    assert ls + [] == ls;
  }

  /** One more file that reads alike itself. */
  lemma OneMoreFile(fs: Files, files: seq<string>, f: string, text: string, depth: nat, visiting: set<string>,
                    chain: seq<string>, act: bool, matches: Line -> bool, key: string)
    requires depth < MAX_DEPTH && files != [] && files[|files| - 1] == f
    requires fs.clean(f) !in visiting && fs.read(f) == Some(text)
    requires FilesReadAlike(fs, files[..|files| - 1], depth, visiting, chain, act, matches, key)
    requires var before := Inserted(fs, files[..|files| - 1], depth, visiting, chain);
      && before.0
      && ReadAlike(OneFile(fs, f, text, depth, visiting, chain).lines,
                   Spliced(fs, Lines(text), depth + 1, visiting + {fs.clean(f)}), false,
                   ActiveFrom(act, before.1.lines, matches), matches, key)
    ensures FilesReadAlike(fs, files, depth, visiting, chain, act, matches, key)
  {
    var n := |files| - 1;
    assert files[..n + 1] == files;
    InsertedNext(fs, files, n, depth, visiting, chain);
    AlikeOn(Inserted(fs, files[..n], depth, visiting, chain).1.lines,
            SplicedFiles(fs, files[..n], depth, visiting).value,
            OneFile(fs, f, text, depth, visiting, chain).lines,
            Spliced(fs, Lines(text), depth + 1, visiting + {fs.clean(f)}), false, act, matches, key);
  }

  lemma {:induction false} FilesAlike(fs: Files, files: seq<string>, depth: nat, visiting: set<string>,
                                      chain: seq<string>, act: bool, matches: Line -> bool, key: string)
    requires depth < MAX_DEPTH && TameFiles(fs, files, depth, visiting)
    ensures FilesReadAlike(fs, files, depth, visiting, chain, act, matches, key)
    decreases MAX_DEPTH - depth, 0, |files|
  {
    if files != [] {
      var f := files[|files| - 1];
      var before := Inserted(fs, files[..|files| - 1], depth, visiting, chain);
      FilesAlike(fs, files[..|files| - 1], depth, visiting, chain, act, matches, key);
      if !before.0 || fs.clean(f) in visiting || fs.read(f).None? {
        NoMoreFile(fs, files, depth, visiting, chain, act, matches, key);
      } else {
        var a := ActiveFrom(act, before.1.lines, matches);
        var k := fs.clean(f);
        FilterPreservesSplicedMeaning(fs, Lines(fs.read(f).value), f, depth + 1, visiting + {k}, chain + [k], a,
                                      matches, key);
        OneMoreFile(fs, files, f, fs.read(f).value, depth, visiting, chain, act, matches, key);
      }
    }
  }

  /** Text without Includes is tame and is its own spliced text. */
  lemma {:induction false} NothingToSplice(fs: Files, lines: seq<string>, depth: nat, visiting: set<string>)
    requires depth <= MAX_DEPTH && IncludeFree(lines)
    ensures Tame(fs, lines, depth, visiting) && Spliced(fs, lines, depth, visiting) == lines
    decreases |lines|
  {
    if lines != [] {
      LastLine(lines);
      NothingToSplice(fs, lines[..|lines| - 1], depth, visiting);
    }
  }

  // ----- Where it is not tame -----

  /** The filter and the splicing of a single line that includes a single file. */
  lemma OneInclude(fs: Files, inc: string, f: string, text: string, path: string, visiting: set<string>,
                   chain: seq<string>)
    requires Classify(inc).Include? && Expands(fs, Classify(inc).args, 0)
    requires Dedupe(Globbed(fs, Classify(inc).args).value) == [f] && fs.clean(f) !in visiting
    requires fs.read(f) == Some(text)
    ensures var k := fs.clean(f);
      && Filtered(fs, [inc], path, 0, visiting, chain).lines
         == Filtered(fs, Lines(text), f, 1, visiting + {k}, chain + [k]).lines
      && Spliced(fs, [inc], 0, visiting) == Spliced(fs, Lines(text), 1, visiting + {k})
      && (Tame(fs, [inc], 0, visiting) ==> !Inert(Lines(text)))
  {
    OneFileInserted(fs, f, text, visiting, chain);
    OneFileSpliced(fs, f, text, visiting);
    assert [inc][..0] == [];
    assert !Inert([inc]);
    var s := SplicedLine(fs, inc, 0, visiting);
    assert [] + s == s;
  }

  lemma OneFileInserted(fs: Files, f: string, text: string, visiting: set<string>, chain: seq<string>)
    requires fs.clean(f) !in visiting && fs.read(f) == Some(text)
    ensures var k := fs.clean(f);
      && Inserted(fs, [f], 0, visiting, chain).0
      && Inserted(fs, [f], 0, visiting, chain).1.lines
         == Filtered(fs, Lines(text), f, 1, visiting + {k}, chain + [k]).lines
  {
    assert [f][..0] == [];
  }

  lemma OneFileSpliced(fs: Files, f: string, text: string, visiting: set<string>)
    requires fs.clean(f) !in visiting && fs.read(f) == Some(text)
    ensures SplicedFiles(fs, [f], 0, visiting) == Some(Spliced(fs, Lines(text), 1, visiting + {fs.clean(f)}))
    ensures TameFiles(fs, [f], 0, visiting) ==> !Inert(Lines(text))
  {
    assert [f][..0] == [];
    var ls := Spliced(fs, Lines(text), 1, visiting + {fs.clean(f)});
    assert [] + ls == ls;
  }

  lemma OneBadLine(fs: Files, bad: string, path: string, depth: nat, visiting: set<string>, chain: seq<string>)
    requires depth <= MAX_DEPTH && Classify(bad).BadMatch?
    ensures Filtered(fs, [bad], path, depth, visiting, chain).lines == []
    ensures Spliced(fs, [bad], depth, visiting) == [bad] && Inert([bad])
  {
    assert [bad][..0] == [];
  }

  lemma OneDirective(line: string, matches: Line -> bool)
    requires Classify(line).Directive?
    ensures Values([line], matches, Classify(line).key) == [Classify(line).args]
  {
    assert [line][..0] == [];
  }

  lemma DirectiveAfterBadMatch(bad: string, line: string, matches: Line -> bool, key: string)
    requires Classify(bad).BadMatch? && Classify(line).Directive?
    ensures Values([bad, line], matches, key) == []
  {
    assert [bad, line][..1] == [bad] && [bad][..0] == [];
    assert !Active([bad], matches) && Values([bad], matches, key) == [];
  }

  /** A directive after lines that leave nothing dropped. */
  lemma ThenDirective(fs: Files, inc: string, line: string, path: string, visiting: set<string>, chain: seq<string>)
    requires Classify(inc).Include? && Classify(line).Directive?
    ensures Filtered(fs, [inc, line], path, 0, visiting, chain).lines
      == Filtered(fs, [inc], path, 0, visiting, chain).lines + [line]
    ensures Spliced(fs, [inc, line], 0, visiting) == Spliced(fs, [inc], 0, visiting) + [line]
    ensures Tame(fs, [inc, line], 0, visiting) ==> Tame(fs, [inc], 0, visiting)
  {
    assert [inc, line][..1] == [inc] && [inc][..0] == [];
    assert !Inert([inc]);
    assert !Inert([inc, line]);
  }

  /** A file that ends in a dropped block changes the meaning of the line after its Include: the filter
      keeps that line's value, the spliced text has it in the dropped block. */
  lemma FileEndsInDroppedBlock(fs: Files, inc: string, f: string, text: string, bad: string, after: string,
                               path: string, visiting: set<string>, chain: seq<string>, matches: Line -> bool)
    requires Classify(inc).Include? && Expands(fs, Classify(inc).args, 0)
    requires Dedupe(Globbed(fs, Classify(inc).args).value) == [f] && fs.clean(f) !in visiting
    requires fs.read(f) == Some(text) && Lines(text) == [bad] && Classify(bad).BadMatch? && Classify(after).Directive?
    ensures !Tame(fs, [inc, after], 0, visiting)
    ensures Values(Filtered(fs, [inc, after], path, 0, visiting, chain).lines, matches, Classify(after).key)
      == [Classify(after).args]
    ensures Values(Spliced(fs, [inc, after], 0, visiting), matches, Classify(after).key) == []
  {
    var k := fs.clean(f);
    OneInclude(fs, inc, f, text, path, visiting, chain);
    OneBadLine(fs, bad, f, 1, visiting + {k}, chain + [k]);
    ThenDirective(fs, inc, after, path, visiting, chain);
    OneDirective(after, matches);
    DirectiveAfterBadMatch(bad, after, matches, Classify(after).key);
    assert [] + [after] == [after] && [bad] + [after] == [bad, after];
  }

  lemma DroppedThenInclude(fs: Files, bad: string, inc: string, path: string, visiting: set<string>, chain: seq<string>)
    requires Classify(bad).BadMatch? && Classify(inc).Include?
    ensures Filtered(fs, [bad, inc], path, 0, visiting, chain).lines == []
    ensures Spliced(fs, [bad, inc], 0, visiting) == [bad] + Spliced(fs, [inc], 0, visiting)
    ensures Tame(fs, [bad, inc], 0, visiting) ==> HeaderFree(Spliced(fs, [inc], 0, visiting))
  {
    OneBadLine(fs, bad, path, 0, visiting, chain);
    assert [bad, inc][..1] == [bad] && [inc][..0] == [];
    assert Inert([bad, inc]);
    var s := SplicedLine(fs, inc, 0, visiting);
    assert [] + s == s;
  }

  lemma OpenedBlock(bad: string, host: string, line: string, matches: Line -> bool)
    requires Classify(host).Host? && matches(Classify(host)) && Classify(line).Directive?
    ensures Values([bad, host, line], matches, Classify(line).key) == Values([bad], matches, Classify(line).key)
      + [Classify(line).args]
  {
    assert [bad, host, line][..2] == [bad, host] && [bad, host][..1] == [bad];
    assert Active([bad, host], matches);
  }

  /** An Include in a dropped block whose file opens a block of its own: the filter drops the Include with
      its block, the spliced text goes on in the new one. */
  lemma DroppedIncludeOpensBlock(fs: Files, bad: string, inc: string, f: string, text: string, host: string,
                                 line: string, path: string, visiting: set<string>, chain: seq<string>,
                                 matches: Line -> bool)
    requires Classify(bad).BadMatch? && Classify(inc).Include? && Expands(fs, Classify(inc).args, 0)
    requires Dedupe(Globbed(fs, Classify(inc).args).value) == [f] && fs.clean(f) !in visiting
    requires fs.read(f) == Some(text) && Lines(text) == [host, line]
    requires Classify(host).Host? && matches(Classify(host)) && Classify(line).Directive?
    ensures !Tame(fs, [bad, inc], 0, visiting)
    ensures Values(Filtered(fs, [bad, inc], path, 0, visiting, chain).lines, matches, Classify(line).key) == []
    ensures Values(Spliced(fs, [bad, inc], 0, visiting), matches, Classify(line).key) == [Classify(line).args]
  {
    DroppedThenInclude(fs, bad, inc, path, visiting, chain);
    OneInclude(fs, inc, f, text, path, visiting, chain);
    NothingToSplice(fs, [host, line], 1, visiting + {fs.clean(f)});
    OpenedBlock(bad, host, line, matches);
    assert [bad] + [host, line] == [bad, host, line];
    assert host in [host, line];
    assert Values([bad], matches, Classify(line).key) == Values([bad][..0], matches, Classify(line).key);
  }

  // ----- Whole texts -----

  /** Lookup in the rewritten text is lookup in the text with its Includes put in place. */
  lemma LenientPreservesSplicedMeaning(fs: Files, text: string, path: string, matches: Line -> bool, key: string)
    requires Tame(fs, Lines(text), 0, {fs.clean(path)})
    ensures var after := Lines(Lenient(fs, text, path));
      var spliced := Spliced(fs, Lines(text), 0, {fs.clean(path)});
      && Values(after, matches, key) == Values(spliced, matches, key)
      && FirstValue(after, matches, key) == FirstValue(spliced, matches, key)
  {
    LenientLines(fs, text, path);
    var chain := [fs.clean(path)];
    FilterPreservesSplicedMeaning(fs, Lines(text), path, 0, {fs.clean(path)}, chain, true, matches, key);
    FromTheStart(Filtered(fs, Lines(text), path, 0, {fs.clean(path)}, chain).lines, matches, key);
    FromTheStart(Spliced(fs, Lines(text), 0, {fs.clean(path)}), matches, key);
    assert Classify("") == Plain;
    assert Values([""], matches, key) == Values([""][..0], matches, key);
  }
}
