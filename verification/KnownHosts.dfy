/** Recovery of a known_hosts file with malformed lines (internal/forward/knownhosts.go).

    The parser of golang.org/x/crypto is an oracle: it says of each line why it is malformed, or
    nothing.  It reports the first line it cannot accept and numbers it in the text of its error. */
module KnownHosts {

  import opened Text
  import opened Wrappers

  /** The length of a character and of a line in bytes, encoded as UTF-8. */
  function Width(c: char): nat {
    if c < '\U{80}' then 1 else if c < '\U{800}' then 2 else if c < '\U{10000}' then 3 else 4
  }

  function Bytes(s: string): nat { if s == "" then 0 else Bytes(s[..|s| - 1]) + Width(s[|s| - 1]) }

  /** Plain ASCII takes a byte a character, any other text more, and never over four. */
  lemma {:induction false} BytesCount(s: string)
    ensures |s| <= Bytes(s) <= 4 * |s|
    ensures Bytes(s) == |s| <==> forall i | 0 <= i < |s| :: s[i] < '\U{80}'
    decreases |s|
  {
    if s != "" {
      var less := s[..|s| - 1];
      BytesCount(less);
      assert forall i | 0 <= i < |less| :: less[i] == s[i];
    }
  }

  /** The longest line the parser's scanner can hand out, and the longest the loader lets through,
      in bytes. */
  const SCAN_MAX: nat := 65535
  const MAX_LINE: nat := 65534

  /** Why a line is malformed, or None. */
  type Grammar = string -> Option<string>

  datatype Parsed = Accepted(lines: seq<string>) | Refused(message: string)

  predicate Malformed(g: Grammar, line: string) { Bytes(line) <= MAX_LINE && line != "" && g(line).Some? }

  predicate Bad(g: Grammar, line: string) { Bytes(line) > MAX_LINE || Malformed(g, line) }

  /** What the scanner makes of a text: a final newline ends the last line and starts none. */
  function ScanLines(text: string): seq<string> {
    var ls := Split(text, '\n');
    if ls[|ls| - 1] == "" then ls[..|ls| - 1] else ls
  }

  /** The first line at or after `from` that the parser stops at. */
  function StopsAt(g: Grammar, ls: seq<string>, from: nat): (i: nat)
    requires from <= |ls|
    ensures from <= i <= |ls|
    ensures forall k | from <= k < i :: Bytes(ls[k]) <= SCAN_MAX && (ls[k] == "" || g(ls[k]).None?)
    ensures i < |ls| ==> Bytes(ls[i]) > SCAN_MAX || (ls[i] != "" && g(ls[i]).Some?)
    decreases |ls| - from
  {
    if from == |ls| || Bytes(ls[from]) > SCAN_MAX || (ls[from] != "" && g(ls[from]).Some?) then from
    else StopsAt(g, ls, from + 1)
  }

  function ParseLines(g: Grammar, path: string, ls: seq<string>): Parsed {
    var i := StopsAt(g, ls, 0);
    if i == |ls| then Accepted(ls)
    else if Bytes(ls[i]) > SCAN_MAX then Refused("bufio.Scanner: token too long")
    else Refused(LineMessage(path, i + 1, g(ls[i]).value))
  }

  function Parse(g: Grammar, path: string, text: string): Parsed { ParseLines(g, path, ScanLines(text)) }

  function Prefix(path: string): string { "knownhosts: " + path + ":" }

  function LineMessage(path: string, num: nat, reason: string): string {
    Prefix(path) + (Itoa(num) + ":" + (" " + reason))
  }

  /** The line number and reason in a per-line message, or 0 and the message itself. */
  function ParseLineError(msg: string, path: string): (int, string) {
    var prefix := Prefix(path);
    if !(prefix <= msg) then (0, msg)
    else
      var rest := msg[|prefix|..];
      var sep := IndexOf(rest, ':');
      if sep < 0 then (0, msg)
      else
        var num := Atoi(rest[..sep]);
        if num.None? || num.value < 1 then (0, msg) else (num.value, TrimSpace(rest[sep + 1..]))
  }

  lemma DigitsThenColon(num: nat, tail: string)
    ensures IndexOf(Itoa(num) + ":" + tail, ':') == |Itoa(num)|
  {
    var rest := Itoa(num) + ":" + tail;
    forall k | 0 <= k < |Itoa(num)| ensures rest[k] != ':' {
      ItoaHasOnly(num, Itoa(num)[k]);
    }
    assert rest[|Itoa(num)|] == ':';
  }

  lemma AfterPrefix(prefix: string, rest: string)
    ensures prefix <= prefix + rest && (prefix + rest)[|prefix|..] == rest
  {
  }

  lemma NumberThenRest(num: nat, tail: string)
    requires 1 <= num <= MAX_INT
    ensures var rest := Itoa(num) + ":" + tail;
      var sep := IndexOf(rest, ':');
      sep >= 0 && Atoi(rest[..sep]) == Some(num) && rest[sep + 1..] == tail
  {
    var rest := Itoa(num) + ":" + tail;
    DigitsThenColon(num, tail);
    assert rest[..|Itoa(num)|] == Itoa(num);
    assert rest[|Itoa(num)| + 1..] == tail;
    AtoiOfItoa(num);
  }

  /** A per-line message gives its number back, whatever the path and the reason contain. */
  lemma LineErrorRoundTrip(path: string, num: nat, reason: string)
    requires 1 <= num <= MAX_INT
    ensures ParseLineError(LineMessage(path, num, reason), path) == (num, TrimSpace(" " + reason))
  {
    AfterPrefix(Prefix(path), Itoa(num) + ":" + (" " + reason));
    NumberThenRest(num, " " + reason);
  }

  function OpenError(path: string): string { "open " + path }

  /** A number is only read out of a message that has it behind the prefix and before a colon; any other
      message names no line and is the reason itself. */
  lemma OnlyLineErrorsNameLines(msg: string, path: string)
    ensures var (num, reason) := ParseLineError(msg, path);
      if num >= 1 then exists digits, rest ::
        msg == Prefix(path) + (digits + ":" + rest) && Atoi(digits) == Some(num) && reason == TrimSpace(rest)
      else num == 0 && reason == msg
  {
    if ParseLineError(msg, path).0 >= 1 {
      var after := msg[|Prefix(path)|..];
      var sep := IndexOf(after, ':');
      assert after == after[..sep] + ":" + after[sep + 1..];
      assert msg == Prefix(path) + (after[..sep] + ":" + after[sep + 1..]);
    }
  }

  /** Other errors name no line. */
  lemma OpenErrorNamesNoLine(path: string)
    ensures ParseLineError(OpenError(path), path) == (0, OpenError(path))
  {
    assert Prefix(path)[0] == 'k' && (OpenError(path))[0] == 'o';
  }

  // ----- The sanitized copy -----

  function Blanked(lines: seq<string>, skip: seq<bool>): (r: seq<string>)
    requires |skip| == |lines|
    ensures |r| == |lines|
  {
    seq(|lines|, i requires 0 <= i < |lines| => if skip[i] then "" else lines[i])
  }

  function Sanitized(lines: seq<string>, skip: seq<bool>): string
    requires |skip| == |lines|
  {
    if lines == [] then ""
    else
      var n := |lines| - 1;
      Sanitized(lines[..n], skip[..n]) + (if skip[n] then "" else lines[n]) + "\n"
  }

  /** The copy reads back as the lines with the skipped ones blank: as many, under the same numbers. */
  lemma SanitizedReadsBack(lines: seq<string>, skip: seq<bool>)
    requires |skip| == |lines| && forall l | l in lines :: '\n' !in l
    ensures ScanLines(Sanitized(lines, skip)) == Blanked(lines, skip)
  {
    var b := Blanked(lines, skip);
    SanitizedIsJoin(lines, skip);
    forall l | l in b + [""] ensures '\n' !in l {
      assert l in b ==> exists i :: 0 <= i < |lines| && l == b[i];
    }
    SplitOfJoin(b + [""], '\n');
    assert (b + [""])[..|b|] == b;
  }

  lemma JoinEnds(b: seq<string>, l: string)
    ensures Join(b + [l] + [""], '\n') == Join(b + [""], '\n') + l + "\n"
  {
    var bl := b + [l];
    var j := bl + [""];
    assert j[..|j| - 1] == bl;
    assert Join(j, '\n') == Join(bl, '\n') + "\n" + "";
    var e := b + [""];
    assert e[..|e| - 1] == b && bl[..|bl| - 1] == b;
    if b != [] {
      assert Join(e, '\n') == Join(b, '\n') + "\n" + "";
      assert Join(bl, '\n') == Join(b, '\n') + "\n" + l;
    }
  }

  lemma {:induction false} SanitizedIsJoin(lines: seq<string>, skip: seq<bool>)
    requires |skip| == |lines|
    ensures Sanitized(lines, skip) == Join(Blanked(lines, skip) + [""], '\n')
    decreases |lines|
  {
    if lines == [] {
      assert Blanked(lines, skip) + [""] == [""];
    } else {
      var n := |lines| - 1;
      SanitizedIsJoin(lines[..n], skip[..n]);
      var c := Blanked(lines[..n], skip[..n]);
      var l := if skip[n] then "" else lines[n];
      assert Blanked(lines, skip) == c + [l];
      JoinEnds(c, l);
    }
  }

  method WriteSanitized(lines: seq<string>, skip: array<bool>) returns (text: string)
    requires skip.Length == |lines|
    ensures text == Sanitized(lines, skip[..])
  {
    text := "";
    var i := 0;
    while i < |lines|
      invariant 0 <= i <= |lines|
      invariant text == Sanitized(lines[..i], skip[..i])
    {
      assert lines[..i + 1][..i] == lines[..i] && skip[..i + 1][..i] == skip[..i];
      if !skip[i] {
        text := text + lines[i];
      }
      text := text + "\n";
      i := i + 1;
    }
    assert lines[..|lines|] == lines && skip[..|lines|] == skip[..];
  }

  // ----- The recovery -----

  /** What the system answers: whether the file can be opened and read, where a temporary file is
      made, and in each round whether the copy can be written and opened. */
  datatype Ops = Ops(first: bool, read: bool, temp: Option<string>, write: nat -> bool, reopen: nat -> bool)

  datatype Outcome = Loaded(lines: seq<string>) | Fatal

  type Warning = (int, string)

  function TooLong(lines: seq<string>): seq<Warning>
    decreases |lines|
  {
    if lines == [] then []
    else
      var n := |lines| - 1;
      TooLong(lines[..n]) + if Bytes(lines[n]) > MAX_LINE then [(|lines|, "line too long")] else []
  }

  function MalformedIn(g: Grammar, lines: seq<string>): (r: seq<Warning>)
    ensures |r| <= |lines|
    decreases |lines|
  {
    if lines == [] then []
    else
      var n := |lines| - 1;
      MalformedIn(g, lines[..n])
      + if Malformed(g, lines[n]) then [(|lines|, TrimSpace(" " + g(lines[n]).value))] else []
  }

  /** The lines with exactly the malformed and the over-long ones blanked. */
  function Recovered(g: Grammar, lines: seq<string>): (r: seq<string>)
    ensures |r| == |lines| && forall i | 0 <= i < |lines| :: r[i] == if Bad(g, lines[i]) then "" else lines[i]
  {
    seq(|lines|, i requires 0 <= i < |lines| => if Bad(g, lines[i]) then "" else lines[i])
  }

  /** Every file operation that `rounds` retries need succeeds. */
  ghost predicate AllOk(ops: Ops, rounds: nat) {
    ops.read && ops.temp.Some? && RoundsOk(ops, rounds + 1)
  }

  ghost predicate RoundsOk(ops: Ops, rounds: nat) { forall k: nat :: k < rounds ==> ops.write(k) && ops.reopen(k) }

  lemma OneMoreRound(ops: Ops, k: nat)
    requires RoundsOk(ops, k) && ops.write(k) && ops.reopen(k)
    ensures RoundsOk(ops, k + 1)
  {
  }

  /** Skipped so far: the over-long lines, and the malformed ones before `edge`. */
  ghost predicate SkippedTo(g: Grammar, lines: seq<string>, skip: seq<bool>, edge: nat) {
    && |skip| == |lines| && edge <= |lines|
    && forall i | 0 <= i < |lines| :: skip[i] == (Bytes(lines[i]) > MAX_LINE || (Malformed(g, lines[i]) && i < edge))
  }

  /** The parser of the copy stops at the next malformed line, or nowhere. */
  lemma StopsAtNextMalformed(g: Grammar, lines: seq<string>, skip: seq<bool>, edge: nat)
    requires SkippedTo(g, lines, skip, edge)
    ensures var j := StopsAt(g, Blanked(lines, skip), 0);
      && (forall i | edge <= i < j :: !Malformed(g, lines[i]))
      && (j < |lines| ==> edge <= j && !skip[j] && Malformed(g, lines[j]) && Blanked(lines, skip)[j] == lines[j])
      && (j == |lines| ==> Blanked(lines, skip) == Recovered(g, lines))
  {
    var b := Blanked(lines, skip);
    var j := StopsAt(g, b, 0);
    forall i | edge <= i < j ensures !Malformed(g, lines[i]) {
      assert b[i] == if skip[i] then "" else lines[i];
    }
    if j < |lines| {
      assert b[j] == if skip[j] then "" else lines[j];
    } else {
      assert b == Recovered(g, lines);
    }
  }

  /** What one parse of the copy says: all is recovered, or the next malformed line by its number. */
  lemma RoundFinds(g: Grammar, lines: seq<string>, skip: seq<bool>, edge: nat, path: string)
    requires SkippedTo(g, lines, skip, edge) && |lines| <= MAX_INT
    ensures var p := ParseLines(g, path, Blanked(lines, skip));
      var j := StopsAt(g, Blanked(lines, skip), 0);
      if j == |lines| then p == Accepted(Recovered(g, lines))
      else p.Refused? && ParseLineError(p.message, path) == (j + 1, TrimSpace(" " + g(lines[j]).value))
  {
    StopsAtNextMalformed(g, lines, skip, edge);
    var j := StopsAt(g, Blanked(lines, skip), 0);
    if j < |lines| {
      LineErrorRoundTrip(path, j + 1, g(lines[j]).value);
    }
  }

  lemma {:induction false} NoneBetween(g: Grammar, lines: seq<string>, a: nat, b: nat)
    requires a <= b <= |lines| && forall i | a <= i < b :: !Malformed(g, lines[i])
    ensures MalformedIn(g, lines[..b]) == MalformedIn(g, lines[..a])
    decreases b
  {
    if a < b {
      NoneBetween(g, lines, a, b - 1);
      assert lines[..b][..b - 1] == lines[..b - 1];
    }
  }

  lemma {:induction false} MalformedGrows(g: Grammar, lines: seq<string>, i: nat)
    requires i <= |lines|
    ensures MalformedIn(g, lines[..i]) <= MalformedIn(g, lines)
    decreases |lines|
  {
    if i == |lines| {
      assert lines[..i] == lines;
    } else {
      assert lines[..|lines| - 1][..i] == lines[..i];
      MalformedGrows(g, lines[..|lines| - 1], i);
    }
  }

  /** Loading succeeds unless a file operation fails, and then keeps every well-formed line. */
  method LoadKnownHosts(g: Grammar, hosts: string, text: string, ops: Ops) returns (r: Outcome, warned: seq<Warning>)
    requires |Split(text, '\n')| <= MAX_INT
    ensures var lines := Split(text, '\n');
      var direct := Parse(g, hosts, text);
      if ops.first && direct.Accepted? then r == Loaded(direct.lines) && warned == []
      else if AllOk(ops, |MalformedIn(g, lines)|) then
        r == Loaded(Recovered(g, lines)) && warned == TooLong(lines) + MalformedIn(g, lines)
      else r == Fatal
  {
    warned := [];
    if ops.first {
      var direct := Parse(g, hosts, text);
      if direct.Accepted? {
        return Loaded(direct.lines), [];
      }
    }
    if !ops.read {
      return Fatal, [];
    }
    var lines := Split(text, '\n');
    if ops.temp.None? {
      return Fatal, [];
    }
    var path := ops.temp.value;
    var skip := new bool[|lines|](_ => false);
    warned := SkipLong(lines, skip);
    r, warned := Retry(g, lines, path, skip, warned, ops);
  }

  method SkipLong(lines: seq<string>, skip: array<bool>) returns (warned: seq<Warning>)
    requires skip.Length == |lines| && forall i | 0 <= i < |lines| :: !skip[i]
    modifies skip
    ensures warned == TooLong(lines)
    ensures forall i | 0 <= i < |lines| :: skip[i] == (Bytes(lines[i]) > MAX_LINE)
  {
    warned := [];
    var i := 0;
    while i < |lines|
      invariant 0 <= i <= |lines|
      invariant warned == TooLong(lines[..i])
      invariant forall k | 0 <= k < |lines| :: skip[k] == (k < i && Bytes(lines[k]) > MAX_LINE)
    {
      assert lines[..i + 1][..i] == lines[..i];
      if Bytes(lines[i]) > MAX_LINE {
        skip[i] := true;
        warned := warned + [(i + 1, "line too long")];
      }
      i := i + 1;
    }
    assert lines[..|lines|] == lines;
  }

  /** The rounds: at most one per line and one more. */
  method Retry(g: Grammar, lines: seq<string>, path: string, skip: array<bool>, before: seq<Warning>, ops: Ops)
    returns (r: Outcome, warned: seq<Warning>)
    requires skip.Length == |lines| <= MAX_INT && forall l | l in lines :: '\n' !in l
    requires ops.read && ops.temp == Some(path)
    requires forall i | 0 <= i < |lines| :: skip[i] == (Bytes(lines[i]) > MAX_LINE)
    modifies skip
    ensures if AllOk(ops, |MalformedIn(g, lines)|) then
              r == Loaded(Recovered(g, lines)) && warned == before + MalformedIn(g, lines)
            else r == Fatal
  {
    r, warned := Fatal, before;
    ghost var edge: nat := 0;
    var k := 0;
    MidwayStarts(g, lines, skip[..], before);
    while k < |lines| + 1
      invariant Midway(g, lines, skip[..], edge, k, before, warned) && RoundsOk(ops, k)
    {
      MidwayBound(g, lines, skip[..], edge, k, before, warned);
      var result, num, reason := OneRound(g, lines, path, skip, k, ops, edge, before, warned);
      if result.Some? {
        return result.value, warned;
      }
      warned := warned + [(num, reason)];
      edge := num;
      k := k + 1;
    }
    MidwayBound(g, lines, skip[..], edge, k, before, warned);
  }

  /** The loop body: done, well or badly, or one more line to skip. */
  method OneRound(g: Grammar, lines: seq<string>, path: string, skip: array<bool>, k: nat, ops: Ops,
                  ghost edge: nat, ghost before: seq<Warning>, ghost warned: seq<Warning>)
    returns (r: Option<Outcome>, num: nat, reason: string)
    requires skip.Length == |lines| <= MAX_INT && forall l | l in lines :: '\n' !in l
    requires Midway(g, lines, skip[..], edge, k, before, warned) && RoundsOk(ops, k)
    modifies skip
    ensures r == Some(Fatal) ==> !(ops.write(k) && ops.reopen(k))
    ensures r.Some? && r.value != Fatal ==>
      && r.value == Loaded(Recovered(g, lines)) && RoundsOk(ops, k + 1)
      && k == |MalformedIn(g, lines)| && warned == before + MalformedIn(g, lines)
    ensures r.None? ==>
      RoundsOk(ops, k + 1) && Midway(g, lines, skip[..], num, k + 1, before, warned + [(num, reason)])
  {
    r, num, reason := Some(Fatal), 0, "";
    if !ops.write(k) {
      return;
    }
    ghost var was := skip[..];
    var p, n, why := LoadCopy(g, lines, path, skip, k, ops.reopen(k), edge, before, warned);
    if p.Accepted? {
      OneMoreRound(ops, k);
      return Some(Loaded(p.lines)), num, reason;
    }
    if n < 1 || n > |lines| || skip[n - 1] {
      return;
    }
    OneMoreRound(ops, k);
    skip[n - 1] := true;
    assert skip[..] == was[n - 1 := true];
    r, num, reason := None, n, why;
  }

  /** Writing the copy and loading it, and what its error says about a line. */
  method LoadCopy(g: Grammar, lines: seq<string>, path: string, skip: array<bool>, ghost k: nat, reopen: bool,
                  ghost edge: nat, ghost before: seq<Warning>, ghost warned: seq<Warning>)
    returns (p: Parsed, num: int, reason: string)
    requires skip.Length == |lines| <= MAX_INT && forall l | l in lines :: '\n' !in l
    requires Midway(g, lines, skip[..], edge, k, before, warned)
    ensures reopen && p.Accepted? ==>
      p.lines == Recovered(g, lines) && k == |MalformedIn(g, lines)| && warned == before + MalformedIn(g, lines)
    ensures reopen && p.Refused? ==> PointsAt(g, lines, skip[..], k, before, warned, num, reason)
    ensures !reopen ==> p.Refused? && num == 0
  {
    var copy := WriteSanitized(lines, skip);
    if reopen {
      p := Parse(g, path, copy);
      SanitizedReadsBack(lines, skip[..]);
      LinesTell(g, lines, skip[..], edge, k, before, warned, path, p);
    } else {
      p := Refused(OpenError(path));
      OpenErrorNamesNoLine(path);
    }
    num, reason := Complaint(p, path);
  }

  /** The next line to skip, and the loop once it is skipped. */
  ghost predicate PointsAt(g: Grammar, lines: seq<string>, skip: seq<bool>, k: nat, before: seq<Warning>,
                           warned: seq<Warning>, num: int, reason: string) {
    && 1 <= num <= |lines| && |skip| == |lines| && !skip[num - 1]
    && Midway(g, lines, skip[num - 1 := true], num, k + 1, before, warned + [(num, reason)])
  }

  lemma LinesTell(g: Grammar, lines: seq<string>, skip: seq<bool>, edge: nat, k: nat, before: seq<Warning>,
                  warned: seq<Warning>, path: string, p: Parsed)
    requires |lines| <= MAX_INT && Midway(g, lines, skip, edge, k, before, warned)
    requires p == ParseLines(g, path, Blanked(lines, skip))
    ensures p.Accepted? ==>
      p.lines == Recovered(g, lines) && k == |MalformedIn(g, lines)| && warned == before + MalformedIn(g, lines)
    ensures p.Refused? ==>
      var (num, reason) := ParseLineError(p.message, path); PointsAt(g, lines, skip, k, before, warned, num, reason)
  {
    var j := Round(g, lines, skip, edge, k, before, warned, path);
  }

  /** What the error of a refused file says about a line. */
  method Complaint(p: Parsed, path: string) returns (num: int, reason: string)
    ensures p.Refused? ==> (num, reason) == ParseLineError(p.message, path)
  {
    num, reason := 0, "";
    if p.Refused? {
      var e := ParseLineError(p.message, path);
      num, reason := e.0, e.1;
    }
  }

  /** The loop of Retry after k rounds, with everything malformed before `edge` found. */
  ghost predicate Midway(g: Grammar, lines: seq<string>, skip: seq<bool>, edge: nat, k: nat, before: seq<Warning>,
                         warned: seq<Warning>) {
    && SkippedTo(g, lines, skip, edge)
    && k == |MalformedIn(g, lines[..edge])| && warned == before + MalformedIn(g, lines[..edge])
  }

  lemma MidwayStarts(g: Grammar, lines: seq<string>, skip: seq<bool>, before: seq<Warning>)
    requires |skip| == |lines| && forall i | 0 <= i < |lines| :: skip[i] == (Bytes(lines[i]) > MAX_LINE)
    ensures Midway(g, lines, skip, 0, 0, before, before)
  {
    assert before + [] == before;
  }

  lemma MidwayBound(g: Grammar, lines: seq<string>, skip: seq<bool>, edge: nat, k: nat, before: seq<Warning>,
                    warned: seq<Warning>)
    requires Midway(g, lines, skip, edge, k, before, warned)
    ensures k <= |MalformedIn(g, lines)| <= |lines|
  {
    MalformedGrows(g, lines, edge);
  }

  lemma SkipNext(g: Grammar, lines: seq<string>, skip: seq<bool>, edge: nat, j: nat)
    requires SkippedTo(g, lines, skip, edge) && edge <= j < |lines| && Malformed(g, lines[j])
    requires forall i | edge <= i < j :: !Malformed(g, lines[i])
    ensures SkippedTo(g, lines, skip[j := true], j + 1)
  {
  }

  lemma MalformedOneMore(g: Grammar, lines: seq<string>, j: nat)
    requires j < |lines| && Malformed(g, lines[j])
    ensures MalformedIn(g, lines[..j + 1]) == MalformedIn(g, lines[..j]) + [(j + 1, TrimSpace(" " + g(lines[j]).value))]
  {
    assert lines[..j + 1][..j] == lines[..j];
  }

  lemma AddedLast(a: seq<Warning>, b: seq<Warning>, w: Warning)
    ensures a + b + [w] == a + (b + [w])
  {
  }

  lemma MidwayAt(g: Grammar, lines: seq<string>, skip: seq<bool>, edge: nat, j: nat, k: nat, before: seq<Warning>,
                 warned: seq<Warning>)
    requires Midway(g, lines, skip, edge, k, before, warned) && edge <= j < |lines| && Malformed(g, lines[j])
    requires forall i | edge <= i < j :: !Malformed(g, lines[i])
    ensures k < |MalformedIn(g, lines)|
    ensures var w := (j + 1, TrimSpace(" " + g(lines[j]).value));
      Midway(g, lines, skip[j := true], j + 1, k + 1, before, warned + [w])
  {
    NoneBetween(g, lines, edge, j);
    SkipNext(g, lines, skip, edge, j);
    MalformedOneMore(g, lines, j);
    MalformedGrows(g, lines, j + 1);
    AddedLast(before, MalformedIn(g, lines[..j]), (j + 1, TrimSpace(" " + g(lines[j]).value)));
  }

  lemma MidwayOn(g: Grammar, lines: seq<string>, skip: seq<bool>, edge: nat, k: nat, before: seq<Warning>,
                 warned: seq<Warning>)
    requires Midway(g, lines, skip, edge, k, before, warned)
    ensures var j := StopsAt(g, Blanked(lines, skip), 0);
      if j == |lines| then k == |MalformedIn(g, lines)| && warned == before + MalformedIn(g, lines)
      else
        && !skip[j] && Malformed(g, lines[j]) && k < |MalformedIn(g, lines)|
        && Midway(g, lines, skip[j := true], j + 1, k + 1, before,
                  warned + [(j + 1, TrimSpace(" " + g(lines[j]).value))])
  {
    StopsAtNextMalformed(g, lines, skip, edge);
    var j := StopsAt(g, Blanked(lines, skip), 0);
    if j == |lines| {
      NoneBetween(g, lines, edge, j);
      assert lines[..j] == lines;
    } else {
      MidwayAt(g, lines, skip, edge, j, k, before, warned);
    }
  }

  /** One round: either everything is recovered, or line j + 1 is the next to skip. */
  lemma Round(g: Grammar, lines: seq<string>, skip: seq<bool>, edge: nat, k: nat, before: seq<Warning>,
              warned: seq<Warning>, path: string)
    returns (j: nat)
    requires Midway(g, lines, skip, edge, k, before, warned) && |lines| <= MAX_INT
    ensures j <= |lines|
    ensures var p := ParseLines(g, path, Blanked(lines, skip));
      if j == |lines| then
        p == Accepted(Recovered(g, lines)) && k == |MalformedIn(g, lines)| && warned == before + MalformedIn(g, lines)
      else
        && p.Refused?
        && var (num, reason) := ParseLineError(p.message, path);
        && num == j + 1 && k < |MalformedIn(g, lines)| && PointsAt(g, lines, skip, k, before, warned, num, reason)
  {
    j := StopsAt(g, Blanked(lines, skip), 0);
    RoundFinds(g, lines, skip, edge, path);
    MidwayOn(g, lines, skip, edge, k, before, warned);
  }

  // ----- What recovery means -----

  /** The recovered lines parse, and they differ from the originals exactly at the bad ones. */
  lemma RecoveredIsExact(g: Grammar, lines: seq<string>, path: string)
    requires forall l | l in lines :: '\n' !in l
    ensures var r := Recovered(g, lines);
      && |r| == |lines|
      && (forall i | 0 <= i < |lines| ::
            r[i] == if Bytes(lines[i]) <= 65534 && (lines[i] == "" || g(lines[i]).None?) then lines[i] else "")
      && Parse(g, path, Sanitized(lines, seq(|lines|, i requires 0 <= i < |lines| => Bad(g, lines[i])))) == Accepted(r)
  {
    var skip := seq(|lines|, i requires 0 <= i < |lines| => Bad(g, lines[i]));
    SanitizedReadsBack(lines, skip);
    assert Blanked(lines, skip) == Recovered(g, lines);
  }

  /** A file that loads as it is would lose nothing in recovery either, short of an over-long line. */
  lemma RecoveryAgreesWithLoading(g: Grammar, text: string, path: string)
    requires Parse(g, path, text).Accepted?
    requires forall l | l in Split(text, '\n') :: Bytes(l) <= MAX_LINE
    ensures Recovered(g, Split(text, '\n')) == Split(text, '\n')
    ensures Parse(g, path, text).lines == ScanLines(text)
  {
    var ls := Split(text, '\n');
    forall l | l in ls ensures !Bad(g, l) {
      if l != "" { ScannedUnlessEmpty(text, l); AcceptedIsFine(g, path, ScanLines(text), l); }
    }
  }

  lemma ScannedUnlessEmpty(text: string, l: string)
    requires l in Split(text, '\n') && l != ""
    ensures l in ScanLines(text)
  {
    var ls := Split(text, '\n');
    var i :| 0 <= i < |ls| && ls[i] == l;
    assert ls[|ls| - 1] == "" ==> ls[..|ls| - 1][i] == l;
  }

  lemma AcceptedIsFine(g: Grammar, path: string, ls: seq<string>, l: string)
    requires ParseLines(g, path, ls).Accepted? && l in ls
    ensures !Malformed(g, l)
  {
  }
}
