/** Text as the program's standard library treats it: trimming, lower case, splitting and joining
    at a separator, and decimal numbers. */
module Text {

  import opened Wrappers

  /** White space in Go's unicode.IsSpace. */
  predicate IsSpace(c: char) {
    || c == ' ' || '\t' <= c <= '\r' || c == '\U{85}' || c == '\U{A0}' || c == '\U{1680}'
    || '\U{2000}' <= c <= '\U{200A}' || c == '\U{2028}' || c == '\U{2029}' || c == '\U{202F}'
    || c == '\U{205F}' || c == '\U{3000}'
  }

  function TrimSpace(s: string): (r: string)
    ensures r == [] || (!IsSpace(r[0]) && !IsSpace(r[|r| - 1]))
    ensures |r| <= |s| && forall c | c in r :: c in s
  {
    if s == [] then s
    else if IsSpace(s[0]) then TrimSpace(s[1..])
    else if IsSpace(s[|s| - 1]) then TrimSpace(s[..|s| - 1])
    else s
  }

  lemma {:induction false} TrimAgain(s: string)
    ensures TrimSpace(TrimSpace(s)) == TrimSpace(s)
  {
  }

  predicate Spaces(s: string) { forall i | 0 <= i < |s| :: IsSpace(s[i]) }

  lemma Around(before: string, t: string, after: string, c: char)
    ensures before + t + after + [c] == before + t + (after + [c])
    ensures [c] + (before + t + after) == [c] + before + t + after
  {
  }

  /** Trimming takes white space off the ends and nothing else. */
  lemma {:induction false} TrimTakesEnds(s: string) returns (before: string, after: string)
    ensures s == before + TrimSpace(s) + after && Spaces(before) && Spaces(after)
    decreases |s|
  {
    before, after := "", "";
    if s != "" {
      if IsSpace(s[0]) {
        before, after := TrimTakesEnds(s[1..]);
        Around(before, TrimSpace(s), after, s[0]);
        before := [s[0]] + before;
      } else if IsSpace(s[|s| - 1]) {
        before, after := TrimTakesEnds(s[..|s| - 1]);
        Around(before, TrimSpace(s), after, s[|s| - 1]);
        after := after + [s[|s| - 1]];
      }
    }
  }

  /** Lower case as far as equality with an ASCII word can see it: besides A-Z only the Kelvin sign
      and the dotted capital I lower to an ASCII letter. */
  function LowerChar(c: char): char {
    if 'A' <= c <= 'Z' then c - 'A' + 'a'
    else if c == '\U{212A}' then 'k'
    else if c == '\U{130}' then 'i'
    else c
  }

  function ToLower(s: string): string { seq(|s|, i requires 0 <= i < |s| => LowerChar(s[i])) }

  /** The first position of c, or -1. */
  function IndexOf(s: string, c: char): (r: int)
    ensures -1 <= r < |s| && (r >= 0 ==> s[r] == c)
    ensures forall k | 0 <= k < (if r < 0 then |s| else r) :: s[k] != c
  {
    if s == "" then -1
    else if s[0] == c then 0
    else
      var r := IndexOf(s[1..], c);
      if r < 0 then -1 else r + 1
  }

  /** The last position of c, or -1. */
  function LastIndexOf(s: string, c: char): (r: int)
    ensures -1 <= r < |s| && (r >= 0 ==> s[r] == c)
    ensures forall k | r < k < |s| :: s[k] != c
  {
    if s == "" then -1 else if s[|s| - 1] == c then |s| - 1 else LastIndexOf(s[..|s| - 1], c)
  }

  // ----- Splitting and joining -----

  function Split(s: string, sep: char): (r: seq<string>)
    ensures r != [] && forall l | l in r :: sep !in l
  {
    if s == "" then [""]
    else
      var r := Split(s[..|s| - 1], sep);
      var c := s[|s| - 1];
      if c == sep then r + [""] else r[|r| - 1 := r[|r| - 1] + [c]]
  }

  function Join(ls: seq<string>, sep: char): string {
    if ls == [] then ""
    else if |ls| == 1 then ls[0]
    else Join(ls[..|ls| - 1], sep) + [sep] + ls[|ls| - 1]
  }

  /** The words with a gap between any two; gaps[i] stands before word i. */
  function Spread(ws: seq<string>, gaps: seq<string>): string
    requires |gaps| >= |ws|
  {
    if ws == [] then "" else if |ws| == 1 then ws[0]
    else Spread(ws[..|ws| - 1], gaps) + gaps[|ws| - 1] + ws[|ws| - 1]
  }

  lemma {:induction false} JoinOfSplit(s: string, sep: char)
    ensures Join(Split(s, sep), sep) == s
    decreases |s|
  {
    if s != "" {
      var t := s[..|s| - 1];
      JoinOfSplit(t, sep);
      var r := Split(t, sep);
      var c := s[|s| - 1];
      assert s == t + [c];
      if c == sep {
        assert (r + [""])[..|r|] == r;
        assert t + [sep] + "" == t + [c];
      } else {
        var q := r[|r| - 1 := r[|r| - 1] + [c]];
        assert q[..|q| - 1] == r[..|r| - 1];
        if |r| > 1 {
          assert Join(r[..|r| - 1], sep) + [sep] + (r[|r| - 1] + [c])
            == Join(r[..|r| - 1], sep) + [sep] + r[|r| - 1] + [c];
        }
      }
    }
  }

  lemma {:induction false} SplitPlain(l: string, sep: char)
    requires sep !in l
    ensures Split(l, sep) == [l]
    decreases |l|
  {
    if l != "" {
      SplitPlain(l[..|l| - 1], sep);
      assert l[..|l| - 1] + [l[|l| - 1]] == l;
    }
  }

  lemma {:induction false} SplitOnce(a: string, l: string, sep: char)
    requires sep !in l
    ensures Split(a + [sep] + l, sep) == Split(a, sep) + [l]
    decreases |l|
  {
    var s := a + [sep] + l;
    if l == "" {
      assert s[..|s| - 1] == a;
    } else {
      var m, c := l[..|l| - 1], l[|l| - 1];
      SplitOnce(a, m, sep);
      assert s[..|s| - 1] == a + [sep] + m;
      assert s[|s| - 1] == c;
      var r := Split(a, sep) + [m];
      assert r[|r| - 1 := m + [c]] == Split(a, sep) + [m + [c]];
      assert m + [c] == l;
    }
  }

  lemma {:induction false} SplitOfJoin(ls: seq<string>, sep: char)
    requires ls != [] && forall l | l in ls :: sep !in l
    ensures Split(Join(ls, sep), sep) == ls
    decreases |ls|
  {
    assert ls[..|ls| - 1] + [ls[|ls| - 1]] == ls;
    if |ls| == 1 {
      SplitPlain(ls[0], sep);
    } else {
      SplitOfJoin(ls[..|ls| - 1], sep);
      SplitOnce(Join(ls[..|ls| - 1], sep), ls[|ls| - 1], sep);
    }
  }

  // ----- Decimal numbers in a 64-bit int -----

  const MAX_INT: int := 0x7FFF_FFFF_FFFF_FFFF
  const MIN_INT: int := -0x8000_0000_0000_0000

  predicate IsDigit(c: char) { '0' <= c <= '9' }

  function DigitValue(c: char): nat
    requires IsDigit(c)
  {
    c as int - '0' as int
  }

  predicate AllDigits(s: string) { forall c | c in s :: IsDigit(c) }

  function Digits(n: nat): (r: string)
    ensures r != "" && AllDigits(r)
  {
    var d := [('0' as int + n % 10) as char];
    if n < 10 then d else Digits(n / 10) + d
  }

  function Itoa(n: int): string { if n < 0 then "-" + Digits(-n) else Digits(n) }

  function DigitsValue(s: string): nat
    requires AllDigits(s)
  {
    if s == "" then 0
    else
      var d := s[|s| - 1];
      assert IsDigit(d);
      10 * DigitsValue(s[..|s| - 1]) + DigitValue(d)
  }

  /** strconv.Atoi: one optional sign, then digits, within the range of an int. */
  function Atoi(s: string): (r: Option<int>)
    ensures r.Some? ==> MIN_INT <= r.value <= MAX_INT
  {
    var signed := s != "" && (s[0] == '-' || s[0] == '+');
    var ds := if signed then s[1..] else s;
    if ds == "" || !AllDigits(ds) then None
    else
      var v: int := if signed && s[0] == '-' then 0 - DigitsValue(ds) else DigitsValue(ds);
      if MIN_INT <= v <= MAX_INT then Some(v) else None
  }

  lemma {:induction false} DigitsValueOfDigits(n: nat)
    ensures DigitsValue(Digits(n)) == n
  {
    var r := Digits(n);
    if n >= 10 {
      DigitsValueOfDigits(n / 10);
      assert r[..|r| - 1] == Digits(n / 10);
    } else {
      assert r[..0] == "";
    }
  }

  /** Printing a number and parsing it back loses nothing. */
  lemma AtoiOfItoa(n: int)
    requires MIN_INT <= n <= MAX_INT
    ensures Atoi(Itoa(n)) == Some(n)
  {
    DigitsValueOfDigits(if n < 0 then -n else n);
    if n < 0 {
      assert Itoa(n)[1..] == Digits(-n);
    } else {
      assert IsDigit(Digits(n)[0]);
    }
  }

  lemma ItoaHasOnly(n: int, c: char)
    requires c in Itoa(n)
    ensures IsDigit(c) || c == '-'
  {
    var ds := Digits(if n < 0 then -n else n);
    assert AllDigits(ds);
    assert c in ds || c == '-';
  }
}
