/** The rotating log writer (internal/log/file.go) and the order in which `portato logs --all`
    reads its files (internal/cmd/logs.go).

    A file is the sequence of writes it holds, so that a statement about sequences of writes is
    also one about bytes and says that no write is split.  Index 0 is the current file, index k
    the archive ".k". */
module RotatingLog {

  import opened Wrappers

  type Chunk = seq<nat>

  /** `own` tells the files this writer started from the ones it found. */
  datatype File = File(chunks: seq<Chunk>, mtime: int, own: bool)

  type Dir = map<nat, File>

  function Size(cs: seq<Chunk>): nat {
    if cs == [] then 0 else Size(cs[..|cs| - 1]) + |cs[|cs| - 1]|
  }

  function Get(d: Dir, k: nat): Option<File> { if k in d then Some(d[k]) else None }

  function At(d: Dir, k: nat): seq<Chunk> { if k in d then d[k].chunks else [] }

  /** Archives k down to 1, then the current file. */
  function Chain(d: Dir, k: nat): seq<Chunk> {
    if k == 0 then At(d, 0) else At(d, k) + Chain(d, k - 1)
  }

  /** What `logs --all` reads: the suffixes .3, .2 and .1, then the current file. */
  function LogsAll(d: Dir): seq<Chunk> { At(d, 3) + At(d, 2) + At(d, 1) + At(d, 0) }

  ghost predicate Suffix(a: seq<Chunk>, b: seq<Chunk>) { |a| <= |b| && b[|b| - |a|..] == a }

  /** What the system does with one Write: how many bytes go out, and whether the write, the close,
      the rename of the current file and the two opens succeed. */
  datatype Outcome = Outcome(n: nat, wrote: bool, closed: bool, renamed: bool, reopened: bool, opened': bool)

  predicate AllOk(o: Outcome, p: Chunk) { o.n == |p| && o.wrote && o.closed && o.renamed && o.reopened && o.opened' }

  /** The writer: its directory, whether its handle is open, and the cached size. */
  datatype Writer = Writer(dir: Dir, handle: bool, written: nat)

  datatype Limits = Limits(maxSize: nat, keep: nat, maxAge: int)

  const DEFAULT_MAX_SIZE: nat := 1048576
  const DEFAULT_KEEP: nat := 3

  function Effective(maxSize: int, keep: int, maxAge: int): (l: Limits)
    ensures LimitsOk(l) && l.maxAge == maxAge
    ensures l.maxSize == (if maxSize > 0 then maxSize else 1_048_576) && l.keep == if keep > 0 then keep else 3
  {
    Limits(if maxSize <= 0 then DEFAULT_MAX_SIZE else maxSize, if keep <= 0 then DEFAULT_KEEP else keep, maxAge)
  }

  predicate LimitsOk(l: Limits) { l.maxSize > 0 && l.keep > 0 }

  // ----- The steps as functions -----

  /** The archive chain moved down by one, the oldest dropped, .1 left free. */
  function Shifted(d: Dir, keep: nat): (r: Dir)
    ensures forall k: nat ::
      Get(r, k) == (if k == 0 || k > keep then Get(d, k) else if k == 1 then None else Get(d, k - 1))
  {
    var moved := set k | k in d && 1 <= k < keep :: k + 1;
    var kept := set k | k in d && (k == 0 || k > keep);
    map k | k in moved + kept :: if k in kept then d[k] else d[k - 1]
  }

  predicate TooOld(d: Dir, l: Limits, now: int, k: nat) {
    l.maxAge > 0 && 1 <= k <= l.keep && k in d && d[k].mtime < now - l.maxAge
  }

  function Purged(d: Dir, l: Limits, now: int): (r: Dir)
    ensures forall k: nat :: Get(r, k) == (if TooOld(d, l, now, k) then None else Get(d, k))
  {
    map k | k in d && !TooOld(d, l, now, k) :: d[k]
  }

  function Rotated(w: Writer, l: Limits, now: int, o: Outcome): Writer {
    if !o.closed then w.(handle := false)
    else
      var d := Shifted(w.dir, l.keep);
      if !o.renamed || 0 !in d then w.(dir := d, handle := o.reopened)
      else
        var d' := (d - {0})[1 := d[0]];
        if !o.opened' then w.(dir := d', handle := false)
        else Writer(Purged(d'[0 := File([], now, true)], l, now), true, 0)
  }

  function Written(w: Writer, l: Limits, p: Chunk, now: int, o: Outcome): Writer {
    if !w.handle || 0 !in w.dir then w
    else
      var n := if o.n <= |p| then o.n else |p|;
      var f := w.dir[0];
      var w' := if n == 0 then w
        else w.(dir := w.dir[0 := f.(chunks := f.chunks + [p[..n]], mtime := now)], written := w.written + n);
      if o.wrote && w'.written >= l.maxSize then Rotated(w', l, now, o) else w'
  }

  // ----- The writer object -----

  class RotatingWriter {
    const limits: Limits
    var dir: Dir
    var handle: bool
    var written: nat

    /** NewRotatingWriter over what is on disk; a non-positive limit falls back to the default. */
    constructor (d: Dir, maxSize: int, keep: int, maxAge: int, now: int)
      ensures limits == Effective(maxSize, keep, maxAge)
      ensures View() == Writer(if 0 in d then d else d[0 := File([], now, true)], true, Size(At(d, 0)))
    {
      limits, handle := Effective(maxSize, keep, maxAge), true;
      dir := if 0 in d then d else d[0 := File([], now, true)];
      written := Size(At(d, 0));
    }

    ghost function View(): Writer
      reads this
    {
      Writer(dir, handle, written)
    }

    method Write(p: Chunk, now: int, o: Outcome)
      requires handle ==> 0 in dir
      modifies this
      ensures View() == Written(old(View()), limits, p, now, o)
    {
      if !handle {
        return;
      }
      var n := if o.n <= |p| then o.n else |p|;
      if n > 0 {
        dir := dir[0 := dir[0].(chunks := dir[0].chunks + [p[..n]], mtime := now)];
        written := written + n;
      }
      if !o.wrote {
        return;
      }
      if written >= limits.maxSize {
        Rotate(now, o);
      }
    }

    method Rotate(now: int, o: Outcome)
      requires 0 in dir
      modifies this
      ensures View() == Rotated(old(View()), limits, now, o)
    {
      handle := false;
      if !o.closed {
        return;
      }
      Shift();
      if !o.renamed {
        handle := o.reopened;
        return;
      }
      dir := (dir - {0})[1 := dir[0]];
      if !o.opened' {
        return;
      }
      dir := dir[0 := File([], now, true)];
      handle, written := true, 0;
      PurgeAged(now);
    }

    method Shift()
      modifies this`dir
      ensures dir == Shifted(old(dir), limits.keep)
      ensures 0 in old(dir) ==> 0 in dir
    {
      ghost var d := dir;
      if limits.keep > 0 {
        dir := dir - {limits.keep};
      }
      var i := limits.keep - 1;
      while i >= 1
        invariant limits.keep > 0 ==> 0 <= i < limits.keep
        invariant limits.keep > 0 ==> forall k: nat :: Get(dir, k) == Partly(d, limits.keep, i, k)
        invariant limits.keep == 0 ==> dir == d
      {
        ghost var before := dir;
        if i in dir {
          dir := (dir - {i})[i + 1 := dir[i]];
        }
        forall k: nat ensures Get(dir, k) == Partly(d, limits.keep, i - 1, k) {
          assert Get(before, k) == Partly(d, limits.keep, i, k);
          assert Get(before, i) == Partly(d, limits.keep, i, i);
        }
        i := i - 1;
      }
      SameDir(dir, Shifted(d, limits.keep));
      assert Get(dir, 0) == Get(d, 0);
    }

    method PurgeAged(now: int)
      modifies this`dir
      ensures dir == Purged(old(dir), limits, now)
    {
      if limits.maxAge <= 0 {
        return;
      }
      ghost var d := dir;
      var n := limits.keep;
      while n >= 1
        invariant 0 <= n <= limits.keep
        invariant forall k: nat :: Get(dir, k) == (if k > n then Get(Purged(d, limits, now), k) else Get(d, k))
      {
        assert Get(dir, n) == Get(d, n);
        if n in dir && dir[n].mtime < now - limits.maxAge {
          dir := dir - {n};
        }
        n := n - 1;
      }
      SameDir(dir, Purged(d, limits, now));
    }
  }

  /** Entry k while archives above i have moved. */
  function Partly(d: Dir, keep: nat, i: nat, k: nat): Option<File> {
    if k <= i || k > keep then Get(d, k) else if k == i + 1 then None else Get(d, k - 1)
  }

  lemma SameDir(a: Dir, b: Dir)
    requires forall k: nat :: Get(a, k) == Get(b, k)
    ensures a == b
  {
    forall k: nat ensures k in a <==> k in b {
      assert Get(a, k) == Get(b, k);
    }
    forall k | k in a ensures a[k] == b[k] {
      assert Get(a, k) == Get(b, k);
    }
  }

  // ----- What every write keeps -----

  /** mtimes do not increase with the archive index, and none is in the future. */
  ghost predicate Ordered(d: Dir, keep: nat, now: int) {
    && (forall j, k | j in d && k in d && j < k <= keep :: d[k].mtime <= d[j].mtime)
    && (forall k | k in d && k <= keep :: d[k].mtime <= now)
  }

  lemma {:induction false} SuffixTrans(a: seq<Chunk>, b: seq<Chunk>, c: seq<Chunk>)
    requires Suffix(a, b) && Suffix(b, c)
    ensures Suffix(a, c)
  {
    assert c[|c| - |a|..] == c[|c| - |b|..][|b| - |a|..];
  }

  lemma {:induction false} ChainSame(a: Dir, b: Dir, k: nat)
    requires forall j: nat | j <= k :: At(a, j) == At(b, j)
    ensures Chain(a, k) == Chain(b, k)
  {
    if k > 0 { ChainSame(a, b, k - 1); }
  }

  /** Moving archives 1..k-1 up by one, with .1 free. */
  lemma {:induction false} ChainShifted(a: Dir, b: Dir, k: nat)
    requires At(b, 0) == At(a, 0) && forall j | 1 <= j <= k :: At(b, j) == if j == 1 then [] else At(a, j - 1)
    ensures k > 0 ==> Chain(b, k) == Chain(a, k - 1)
    ensures k == 0 ==> Chain(b, 0) == Chain(a, 0)
  {
    if k > 1 { ChainShifted(a, b, k - 1); }
  }

  /** Moving the current file to the free .1 and starting an empty one changes no content. */
  lemma {:induction false} ChainRenamed(a: Dir, b: Dir, k: nat)
    requires At(a, 1) == [] && At(b, 0) == [] && At(b, 1) == At(a, 0) && forall j | 2 <= j <= k :: At(b, j) == At(a, j)
    ensures k > 0 ==> Chain(b, k) == Chain(a, k)
  {
    if k > 1 { ChainRenamed(a, b, k - 1); } else if k == 1 {
      assert Chain(a, 1) == [] + At(a, 0);
      assert Chain(b, 1) == At(a, 0) + [];
    }
  }

  /** Emptying every archive older than some index leaves a suffix. */
  lemma {:induction false} ChainCut(a: Dir, b: Dir, k: nat, cut: nat)
    requires forall j: nat | j <= k :: At(b, j) == if j > cut then [] else At(a, j)
    ensures Suffix(Chain(b, k), Chain(a, k))
  {
    if k > 0 {
      ChainCut(a, b, k - 1, cut);
      if k <= cut { ChainSame(a, b, k); } else {
        assert Chain(b, k) == Chain(b, k - 1);
        assert Suffix(Chain(a, k - 1), Chain(a, k));
        SuffixTrans(Chain(b, k - 1), Chain(a, k - 1), Chain(a, k));
      }
    }
  }

  /** Purging by age removes an oldest stretch of an ordered chain. */
  lemma PurgeCuts(d: Dir, l: Limits, now: int)
    requires Ordered(d, l.keep, now)
    ensures Suffix(Chain(Purged(d, l, now), l.keep), Chain(d, l.keep))
  {
    if l.maxAge <= 0 {
      assert Purged(d, l, now) == d;
    } else {
      var cut: nat := l.keep;
      while cut > 0 && (cut !in d || d[cut].mtime < now - l.maxAge)
        invariant cut <= l.keep
        invariant forall k | cut < k <= l.keep && k in d :: d[k].mtime < now - l.maxAge
      {
        cut := cut - 1;
      }
      var r := Purged(d, l, now);
      forall j: nat | j <= l.keep ensures At(r, j) == if j > cut then [] else At(d, j) {
        assert Get(r, j) == if TooOld(d, l, now, j) then None else Get(d, j);
        assert 1 <= j < cut && j in d ==> d[cut].mtime <= d[j].mtime;
      }
      ChainCut(d, r, l.keep, cut);
    }
  }

  lemma ShiftMoves(d: Dir, keep: nat, k: nat)
    ensures At(Shifted(d, keep), k) == if k == 0 || k > keep then At(d, k) else if k == 1 then [] else At(d, k - 1)
  {
    assert Get(Shifted(d, keep), k) == if k == 0 || k > keep then Get(d, k) else if k == 1 then None else Get(d, k - 1);
  }

  /** Where the file that ends up at j came from. */
  function From(j: nat): nat { if j == 0 then 0 else j - 1 }

  lemma ShiftFrom(d: Dir, keep: nat, j: nat)
    requires j in Shifted(d, keep) && j <= keep
    ensures From(j) in d && Shifted(d, keep)[j] == d[From(j)]
  {
    assert Get(Shifted(d, keep), j) == if j == 0 then Get(d, j) else if j == 1 then None else Get(d, j - 1);
  }

  lemma ShiftKeepsOrder(d: Dir, keep: nat, now: int)
    requires keep > 0 && Ordered(d, keep, now)
    ensures Ordered(Shifted(d, keep), keep, now)
  {
    var r := Shifted(d, keep);
    forall k | k in r && k <= keep ensures r[k].mtime <= now {
      ShiftFrom(d, keep, k);
    }
    forall j, k | j in r && k in r && j < k <= keep ensures r[k].mtime <= r[j].mtime {
      ShiftFrom(d, keep, j);
      ShiftFrom(d, keep, k);
    }
  }

  /** Shifting drops the oldest archive and frees .1. */
  lemma ShiftKeeps(d: Dir, keep: nat)
    requires keep > 0
    ensures var r := Shifted(d, keep); 1 !in r && Get(r, 0) == Get(d, 0) && Suffix(Chain(r, keep), Chain(d, keep))
  {
    var r := Shifted(d, keep);
    assert Get(r, 1) == None && Get(r, 0) == Get(d, 0);
    forall k: nat | 1 <= k <= keep ensures At(r, k) == if k == 1 then [] else At(d, k - 1) {
      ShiftMoves(d, keep, k);
    }
    ChainShifted(d, r, keep);
  }

  lemma PurgeKeeps(d: Dir, l: Limits, now: int)
    requires Ordered(d, l.keep, now)
    ensures var r := Purged(d, l, now);
      Ordered(r, l.keep, now) && Get(r, 0) == Get(d, 0) && Suffix(Chain(r, l.keep), Chain(d, l.keep))
  {
    var r := Purged(d, l, now);
    PurgeCuts(d, l, now);
    forall k: nat ensures Get(r, k) == Get(d, k) || Get(r, k) == None {
      assert Get(r, k) == if TooOld(d, l, now, k) then None else Get(d, k);
    }
    forall j, k | j in r && k in r && j < k <= l.keep ensures r[k].mtime <= r[j].mtime {
      assert Get(r, j) != None && Get(r, k) != None;
    }
    forall k | k in r && k <= l.keep ensures r[k].mtime <= now {
      assert Get(r, k) != None;
    }
  }

  /** Renaming the current file to the free .1, without or with a fresh current file. */
  lemma RenameKeeps(d: Dir, keep: nat, now: int)
    requires keep > 0 && Ordered(d, keep, now) && 0 in d && 1 !in d
    ensures var r := (d - {0})[1 := d[0]];
      Ordered(r, keep, now) && Chain(r, keep) == Chain(d, keep)
    ensures var r := (d - {0})[1 := d[0]][0 := File([], now, true)];
      Ordered(r, keep, now) && Chain(r, keep) == Chain(d, keep)
  {
    ChainRenamed(d, (d - {0})[1 := d[0]], keep);
    ChainRenamed(d, (d - {0})[1 := d[0]][0 := File([], now, true)], keep);
  }

  lemma {:induction false} ChainAppended(a: Dir, b: Dir, k: nat, c: Chunk)
    requires At(b, 0) == At(a, 0) + [c] && forall j: nat | 1 <= j <= k :: At(b, j) == At(a, j)
    ensures Chain(b, k) == Chain(a, k) + [c]
  {
    if k > 0 {
      ChainAppended(a, b, k - 1, c);
      assert At(a, k) + (Chain(a, k - 1) + [c]) == (At(a, k) + Chain(a, k - 1)) + [c];
    }
  }

  /** The open handle's cached size is the real size of the current file. */
  ghost predicate SizeCached(w: Writer) { w.handle ==> 0 in w.dir && w.written == Size(w.dir[0].chunks) }

  /** What all writes keep: the archives down to the current file are the end of `hist`. */
  ghost predicate Good(w: Writer, l: Limits, hist: seq<Chunk>, now: int) {
    Ordered(w.dir, l.keep, now) && Suffix(Chain(w.dir, l.keep), hist)
  }

  /** Whatever fails on the way, rotation loses nothing but the oldest end. */
  lemma RotateKeeps(w: Writer, l: Limits, hist: seq<Chunk>, now: int, o: Outcome)
    requires LimitsOk(l) && Good(w, l, hist, now)
    ensures Good(Rotated(w, l, now, o), l, hist, now)
  {
    if o.closed {
      var d := Shifted(w.dir, l.keep);
      ShiftKeepsOrder(w.dir, l.keep, now);
      ShiftKeeps(w.dir, l.keep);
      SuffixTrans(Chain(d, l.keep), Chain(w.dir, l.keep), hist);
      if o.renamed && 0 in d {
        RenameKeeps(d, l.keep, now);
        if o.opened' {
          var f := (d - {0})[1 := d[0]][0 := File([], now, true)];
          PurgeKeeps(f, l, now);
          SuffixTrans(Chain(Purged(f, l, now), l.keep), Chain(f, l.keep), hist);
        }
      }
    }
  }

  lemma RotateKeepsCache(w: Writer, l: Limits, now: int, o: Outcome)
    requires 0 in w.dir && w.written == Size(w.dir[0].chunks)
    ensures SizeCached(Rotated(w, l, now, o))
  {
    assert Get(Shifted(w.dir, l.keep), 0) == Get(w.dir, 0);
    var f := (Shifted(w.dir, l.keep) - {0})[1 := w.dir[0]][0 := File([], now, true)];
    assert Get(Purged(f, l, now), 0) == Get(f, 0);
  }

  /** The bytes of one Write that reach the file, as what the history gains. */
  function Accepted(w: Writer, p: Chunk, o: Outcome): seq<Chunk> {
    if !w.handle || 0 !in w.dir || o.n == 0 || |p| == 0 then [] else [p[..if o.n <= |p| then o.n else |p|]]
  }

  /** The writer after the bytes are out and before any rotation. */
  function Appended(w: Writer, p: Chunk, now: int, o: Outcome): Writer {
    if Accepted(w, p, o) == [] then w
    else
      var c := Accepted(w, p, o)[0];
      w.(dir := w.dir[0 := w.dir[0].(chunks := w.dir[0].chunks + [c], mtime := now)], written := w.written + |c|)
  }

  lemma WrittenIsAppendedThenRotated(w: Writer, l: Limits, p: Chunk, now: int, o: Outcome)
    ensures var a := Appended(w, p, now, o);
      Written(w, l, p, now, o) ==
      if w.handle && 0 in w.dir && o.wrote && a.written >= l.maxSize then Rotated(a, l, now, o) else a
  {
  }

  lemma AppendKeeps(w: Writer, l: Limits, hist: seq<Chunk>, p: Chunk, before: int, now: int, o: Outcome)
    requires Good(w, l, hist, before) && before <= now
    ensures Good(Appended(w, p, now, o), l, hist + Accepted(w, p, o), now)
    ensures SizeCached(w) ==> SizeCached(Appended(w, p, now, o))
  {
    if Accepted(w, p, o) == [] {
      assert hist + [] == hist;
    } else {
      var c := Accepted(w, p, o)[0];
      var a := Appended(w, p, now, o);
      ChainAppended(w.dir, a.dir, l.keep, c);
      var was := Chain(w.dir, l.keep);
      assert (hist + [c])[|hist| - |was|..] == hist[|hist| - |was|..] + [c];
      assert a.dir[0].chunks[..|a.dir[0].chunks| - 1] == w.dir[0].chunks;
    }
  }

  lemma WriteKeeps(w: Writer, l: Limits, hist: seq<Chunk>, p: Chunk, before: int, now: int, o: Outcome)
    requires LimitsOk(l) && Good(w, l, hist, before) && SizeCached(w) && before <= now
    ensures Good(Written(w, l, p, now, o), l, hist + Accepted(w, p, o), now)
    ensures SizeCached(Written(w, l, p, now, o))
  {
    WrittenIsAppendedThenRotated(w, l, p, now, o);
    AppendKeeps(w, l, hist, p, before, now, o);
    var a := Appended(w, p, now, o);
    if w.handle && 0 in w.dir {
      RotateKeeps(a, l, hist + Accepted(w, p, o), now, o);
      RotateKeepsCache(a, l, now, o);
    }
  }

  // ----- One write, file by file -----

  /** What is left of a file when archives past their age are removed; 0 is no age limit. */
  function IfYoung(f: Option<File>, maxAge: int, now: int): Option<File> {
    if f.Some? && maxAge > 0 && now - f.value.mtime > maxAge then None else f
  }

  /** Purging removes exactly the archives .1 to .keep whose age exceeds the limit. */
  lemma PurgeGoesByAge(d: Dir, l: Limits, now: int, k: nat)
    ensures Get(Purged(d, l, now), k) == if 1 <= k <= l.keep then IfYoung(Get(d, k), l.maxAge, now) else Get(d, k)
  {
    assert Get(Purged(d, l, now), k) == if TooOld(d, l, now, k) then None else Get(d, k);
  }

  /** Where file k of a rotated directory comes from: the current file was `full`. */
  function RotatedFile(d: Dir, full: File, l: Limits, now: int, k: nat): Option<File> {
    if k == 0 then Some(File([], now, true))
    else if k == 1 then Some(full)
    else if k <= l.keep then IfYoung(Get(d, k - 1), l.maxAge, now)
    else Get(d, k)
  }

  lemma RotatedByFile(w: Writer, l: Limits, now: int, o: Outcome, k: nat)
    requires LimitsOk(l) && o.closed && o.renamed && o.opened' && 0 in w.dir && w.dir[0].mtime == now
    ensures Get(Rotated(w, l, now, o).dir, k) == RotatedFile(w.dir, w.dir[0], l, now, k)
  {
    var d := Shifted(w.dir, l.keep);
    assert Get(d, 0) == Get(w.dir, 0);
    assert Get(d, k) == if k == 0 || k > l.keep then Get(w.dir, k) else if k == 1 then None else Get(w.dir, k - 1);
    PurgeGoesByAge((d - {0})[1 := d[0]][0 := File([], now, true)], l, now, k);
  }

  /** A write that fills the file moves every archive on by one, drops the one beyond .keep and those
      past their age, and starts an empty file; the full one, with the write whole, is .1. */
  lemma FullFileRotates(w: Writer, l: Limits, p: Chunk, now: int, o: Outcome, k: nat)
    requires LimitsOk(l) && w.handle && SizeCached(w) && p != [] && AllOk(o, p)
    requires Size(w.dir[0].chunks) + |p| >= l.maxSize
    ensures var v := Written(w, l, p, now, o);
      var full := w.dir[0].(chunks := w.dir[0].chunks + [p], mtime := now);
      v.handle && v.written == 0 && Get(v.dir, k) == RotatedFile(w.dir, full, l, now, k)
  {
    assert p[..|p|] == p;
    WrittenIsAppendedThenRotated(w, l, p, now, o);
    var a := Appended(w, p, now, o);
    RotatedByFile(a, l, now, o, k);
    assert Get(Shifted(a.dir, l.keep), 0) == Get(a.dir, 0);
    assert k > 1 ==> Get(a.dir, k - 1) == Get(w.dir, k - 1);
  }

  /** A write that leaves the file below its limit is appended whole, and no other file is touched. */
  lemma SmallWriteAppends(w: Writer, l: Limits, p: Chunk, now: int, o: Outcome, k: nat)
    requires w.handle && SizeCached(w) && p != [] && o.n == |p| && o.wrote
    requires Size(w.dir[0].chunks) + |p| < l.maxSize
    ensures var v := Written(w, l, p, now, o);
      && v.handle && v.written == w.written + |p|
      && Get(v.dir, k)
        == if k == 0 then Some(w.dir[0].(chunks := w.dir[0].chunks + [p], mtime := now)) else Get(w.dir, k)
  {
    assert p[..|p|] == p;
  }

  // ----- Sequences of writes -----

  datatype Step = Step(p: Chunk, now: int, o: Outcome)

  function After(w: Writer, l: Limits, steps: seq<Step>): Writer
    decreases |steps|
  {
    if steps == [] then w
    else
      var s := steps[|steps| - 1];
      Written(After(w, l, steps[..|steps| - 1]), l, s.p, s.now, s.o)
  }

  /** `hist` and then everything the writes put on disk. */
  function History(w: Writer, l: Limits, steps: seq<Step>, hist: seq<Chunk>): seq<Chunk>
    decreases |steps|
  {
    if steps == [] then hist
    else
      var s := steps[|steps| - 1];
      History(w, l, steps[..|steps| - 1], hist) + Accepted(After(w, l, steps[..|steps| - 1]), s.p, s.o)
  }

  ghost predicate Timed(steps: seq<Step>, start: int) {
    && (forall i | 0 <= i < |steps| :: start <= steps[i].now)
    && (forall i, j | 0 <= i < j < |steps| :: steps[i].now <= steps[j].now)
  }

  function Latest(steps: seq<Step>, start: int): int { if steps == [] then start else steps[|steps| - 1].now }

  /** Archives .keep down to .1 and then the current file always hold an unbroken end of everything
      written, whatever writes, closes, renames and opens of the current file fail. */
  lemma {:induction false} ChainIsASuffix(w: Writer, l: Limits, hist: seq<Chunk>, steps: seq<Step>, start: int)
    requires LimitsOk(l) && Good(w, l, hist, start) && SizeCached(w) && Timed(steps, start)
    ensures Good(After(w, l, steps), l, History(w, l, steps, hist), Latest(steps, start))
    ensures SizeCached(After(w, l, steps))
    decreases |steps|
  {
    if steps != [] {
      var rest := steps[..|steps| - 1];
      var s := steps[|steps| - 1];
      ChainIsASuffix(w, l, hist, rest, start);
      WriteKeeps(After(w, l, rest), l, History(w, l, rest, hist), s.p, Latest(rest, start), s.now, s.o);
    }
  }

  // ----- How many archives, and how large -----

  /** Files beyond .keep are never touched, so there are at most `keep` archives unless more were found. */
  lemma {:induction false} BeyondKeepIsUntouched(w: Writer, l: Limits, steps: seq<Step>, k: nat)
    requires LimitsOk(l) && k > l.keep
    ensures Get(After(w, l, steps).dir, k) == Get(w.dir, k)
    decreases |steps|
  {
    if steps != [] {
      var rest := steps[..|steps| - 1];
      var s := steps[|steps| - 1];
      BeyondKeepIsUntouched(w, l, rest, k);
      var v := After(w, l, rest);
      WrittenIsAppendedThenRotated(v, l, s.p, s.now, s.o);
      var a := Appended(v, s.p, s.now, s.o);
      assert Get(a.dir, k) == Get(v.dir, k);
      var d := Shifted(a.dir, l.keep);
      assert Get(d, k) == Get(a.dir, k);
      if 0 in d {
        var f := (d - {0})[1 := d[0]][0 := File([], s.now, true)];
        assert Get(Purged(f, l, s.now), k) == Get(f, k);
      }
    }
  }

  /** Every archive this writer started is one of .1 to .keep, if those it found were. */
  lemma OwnArchivesAreKept(w: Writer, l: Limits, steps: seq<Step>, k: nat)
    requires LimitsOk(l) && (forall i: nat | i in w.dir && w.dir[i].own :: i <= l.keep)
    ensures k in After(w, l, steps).dir && After(w, l, steps).dir[k].own ==> k <= l.keep
  {
    if k > l.keep {
      BeyondKeepIsUntouched(w, l, steps, k);
      assert Get(After(w, l, steps).dir, k) == Get(w.dir, k);
    }
  }

  /** A file this writer started passed maxSize with its last write at the earliest; the open one has not yet. */
  ghost predicate Tight(w: Writer, l: Limits) {
    forall k: nat | k in w.dir && w.dir[k].own ::
      var cs := w.dir[k].chunks;
      if k == 0 then Size(cs) < l.maxSize else cs == [] || Size(cs[..|cs| - 1]) < l.maxSize
  }

  /** The same with the current file allowed its last write. */
  ghost predicate NearlyTight(d: Dir, l: Limits) {
    forall k: nat | k in d && d[k].own ::
      var cs := d[k].chunks;
      cs == [] || Size(cs[..|cs| - 1]) < l.maxSize
  }

  lemma RotationIsTight(w: Writer, l: Limits, now: int, o: Outcome)
    requires LimitsOk(l) && NearlyTight(w.dir, l) && 0 in w.dir && o.closed && o.renamed && o.opened'
    ensures Tight(Rotated(w, l, now, o), l)
  {
    var d := Shifted(w.dir, l.keep);
    assert Get(d, 0) == Get(w.dir, 0);
    var f := (d - {0})[1 := d[0]][0 := File([], now, true)];
    var r := Purged(f, l, now);
    forall k: nat | k in r && r[k].own
      ensures var cs := r[k].chunks;
        if k == 0 then Size(cs) < l.maxSize else cs == [] || Size(cs[..|cs| - 1]) < l.maxSize
    {
      assert Get(r, k) == Get(f, k);
      if k > 1 {
        assert Get(d, k) == if k > l.keep then Get(w.dir, k) else Get(w.dir, k - 1);
      }
    }
  }

  /** When every operation succeeds, each file this writer starts exceeds maxSize by less than one write. */
  lemma {:induction false} FilesStayBounded(w: Writer, l: Limits, steps: seq<Step>)
    requires LimitsOk(l) && w.handle && SizeCached(w) && Tight(w, l)
    requires forall i | 0 <= i < |steps| :: AllOk(steps[i].o, steps[i].p)
    ensures var v := After(w, l, steps); v.handle && SizeCached(v) && Tight(v, l)
    decreases |steps|
  {
    if steps != [] {
      var rest := steps[..|steps| - 1];
      var s := steps[|steps| - 1];
      FilesStayBounded(w, l, rest);
      var v := After(w, l, rest);
      WrittenIsAppendedThenRotated(v, l, s.p, s.now, s.o);
      var a := Appended(v, s.p, s.now, s.o);
      AppendIsNearlyTight(v, l, s.p, s.now, s.o);
      if a.written >= l.maxSize {
        RotationIsTight(a, l, s.now, s.o);
        RotateKeepsCache(a, l, s.now, s.o);
      }
    }
  }

  lemma AppendIsNearlyTight(w: Writer, l: Limits, p: Chunk, now: int, o: Outcome)
    requires LimitsOk(l) && w.handle && SizeCached(w) && Tight(w, l)
    ensures var a := Appended(w, p, now, o);
      NearlyTight(a.dir, l) && SizeCached(a) && (a.written < l.maxSize ==> Tight(a, l))
  {
    var a := Appended(w, p, now, o);
    if Accepted(w, p, o) != [] {
      assert a.dir[0].chunks[..|a.dir[0].chunks| - 1] == w.dir[0].chunks;
    }
    var cs := w.dir[0].chunks;
    assert cs != [] ==> Size(cs) == Size(cs[..|cs| - 1]) + |cs[|cs| - 1]|;
  }

  // ----- What `logs --all` reads -----

  /** No archive that the writer no longer manages is left with content where `logs --all` looks. */
  ghost predicate NoneStale(d: Dir, keep: nat) { forall k: nat | keep < k <= 3 :: At(d, k) == [] }

  lemma LogsAllIsChainEnd(d: Dir, keep: nat)
    requires keep > 0 && NoneStale(d, keep)
    ensures Suffix(LogsAll(d), Chain(d, keep))
  {
    var c3 := At(d, 3) + (At(d, 2) + (At(d, 1) + At(d, 0)));
    assert LogsAll(d) == c3;
    assert Chain(d, 1) == At(d, 1) + Chain(d, 0);
    assert Chain(d, 2) == At(d, 2) + Chain(d, 1);
    assert Chain(d, 3) == c3;
    ChainEndsWith(d, if keep < 3 then keep else 3, keep);
    if keep < 3 {
      assert At(d, 3) == [];
      if keep < 2 { assert At(d, 2) == []; }
    }
  }

  lemma {:induction false} ChainEndsWith(d: Dir, j: nat, k: nat)
    requires j <= k
    ensures Suffix(Chain(d, j), Chain(d, k))
  {
    if j < k {
      ChainEndsWith(d, j, k - 1);
      SuffixTrans(Chain(d, j), Chain(d, k - 1), Chain(d, k));
    }
  }

  /** With no stale archive, what `logs --all` prints is always an unbroken end of the history. */
  lemma LogsAllReadsASuffix(w: Writer, l: Limits, hist: seq<Chunk>, steps: seq<Step>, start: int)
    requires LimitsOk(l) && Good(w, l, hist, start) && SizeCached(w) && Timed(steps, start)
    requires NoneStale(w.dir, l.keep)
    ensures Suffix(LogsAll(After(w, l, steps).dir), History(w, l, steps, hist))
  {
    ChainIsASuffix(w, l, hist, steps, start);
    var d := After(w, l, steps).dir;
    forall k: nat | l.keep < k <= 3 ensures At(d, k) == [] {
      BeyondKeepIsUntouched(w, l, steps, k);
      assert Get(d, k) == Get(w.dir, k);
      assert At(d, k) == At(w.dir, k);
    }
    LogsAllIsChainEnd(d, l.keep);
    SuffixTrans(LogsAll(d), Chain(d, l.keep), History(w, l, steps, hist));
  }

  const FINE := Outcome(0, true, true, true, true, true)

  predicate WrittenNow(d: Dir, k: nat, now: int) { k in d && d[k].mtime == now }

  /** One write that fills the file by itself moves every archive on; those written now survive the
      purge, and archives beyond keep stay. */
  ghost predicate Moved(d: Dir, r: Dir, keep: nat, x: Chunk, now: int) {
    && 0 in r && At(r, 0) == [] && WrittenNow(r, 1, now) && At(r, 1) == At(d, 0) + [x]
    && (forall k: nat | 1 < k <= keep && WrittenNow(d, k - 1, now) :: Get(r, k) == Get(d, k - 1))
    && (forall k: nat | k > keep :: Get(r, k) == Get(d, k))
  }

  lemma FullWriteShifts(w: Writer, l: Limits, x: Chunk, now: int)
    requires LimitsOk(l) && |x| >= l.maxSize && w.handle && 0 in w.dir
    ensures var v := Written(w, l, x, now, FINE.(n := |x|)); v.handle && Moved(w.dir, v.dir, l.keep, x, now)
  {
    var o := FINE.(n := |x|);
    WrittenIsAppendedThenRotated(w, l, x, now, o);
    assert x[..|x|] == x;
    var a := Appended(w, x, now, o);
    var d := Shifted(a.dir, l.keep);
    assert Get(d, 0) == Get(a.dir, 0);
    var f := (d - {0})[1 := d[0]][0 := File([], now, true)];
    var r := Purged(f, l, now);
    assert Written(w, l, x, now, o) == Writer(r, true, 0);
    assert Get(r, 0) == Get(f, 0) && Get(r, 1) == Get(f, 1);
    forall k: nat | 1 < k <= l.keep && WrittenNow(w.dir, k - 1, now) ensures Get(r, k) == Get(w.dir, k - 1) {
      assert Get(d, k) == Get(a.dir, k - 1);
      assert Get(r, k) == Get(f, k);
    }
    forall k: nat | k > l.keep ensures Get(r, k) == Get(w.dir, k) {
      assert Get(d, k) == Get(a.dir, k);
      assert Get(r, k) == Get(f, k);
    }
  }

  /** `n` full writes of x. */
  function Full(n: nat, x: Chunk, now: int): seq<Step> {
    if n == 0 then [] else Full(n - 1, x, now) + [Step(x, now, FINE.(n := |x|))]
  }

  lemma {:induction false} FullIsFine(n: nat, x: Chunk, now: int)
    ensures |Full(n, x, now)| == n && Timed(Full(n, x, now), now)
    ensures forall s | s in Full(n, x, now) :: s.p == x && s.now == now && AllOk(s.o, x)
  {
    if n > 0 { FullIsFine(n - 1, x, now); }
  }

  lemma FullStep(w: Writer, l: Limits, x: Chunk, now: int, n: nat)
    requires n > 0
    ensures After(w, l, Full(n, x, now)) == Written(After(w, l, Full(n - 1, x, now)), l, x, now, FINE.(n := |x|))
  {
    var s := Full(n, x, now);
    assert s[..|s| - 1] == Full(n - 1, x, now);
  }

  lemma HistoryUnfolds(w: Writer, l: Limits, x: Chunk, now: int, n: nat, hist: seq<Chunk>)
    requires n > 0
    ensures History(w, l, Full(n, x, now), hist)
      == History(w, l, Full(n - 1, x, now), hist) + Accepted(After(w, l, Full(n - 1, x, now)), x, FINE.(n := |x|))
  {
    var s := Full(n, x, now);
    assert s[..|s| - 1] == Full(n - 1, x, now);
  }

  lemma AcceptsAll(v: Writer, x: Chunk)
    requires v.handle && 0 in v.dir && x != []
    ensures Accepted(v, x, FINE.(n := |x|)) == [x]
  {
    assert x[..|x|] == x;
  }

  lemma FullStepHistory(w: Writer, l: Limits, x: Chunk, now: int, n: nat, hist: seq<Chunk>)
    requires LimitsOk(l) && |x| >= l.maxSize && n > 0
    requires After(w, l, Full(n - 1, x, now)).handle && 0 in After(w, l, Full(n - 1, x, now)).dir
    requires History(w, l, Full(n - 1, x, now), hist) == hist + Copies(n - 1, x)
    ensures History(w, l, Full(n, x, now), hist) == hist + Copies(n, x)
  {
    HistoryUnfolds(w, l, x, now, n, hist);
    AcceptsAll(After(w, l, Full(n - 1, x, now)), x);
    assert hist + Copies(n - 1, x) + [x] == hist + Copies(n, x);
  }

  predicate Holds(d: Dir, k: nat, x: Chunk, now: int) { WrittenNow(d, k, now) && At(d, k) == [x] }

  predicate Same(d: Dir, was: Dir, k: nat) { Get(d, k) == Get(was, k) }

  /** The n - 1 newest archives hold x alone and were written now; the unmanaged ones hold what they
      held in `was`. */
  ghost predicate Filled(d: Dir, was: Dir, keep: nat, x: Chunk, now: int, n: nat) {
    && (n > 0 ==> At(d, 0) == [])
    && (forall k: nat | 1 <= k <= keep && k < n :: Holds(d, k, x, now))
    && (forall k: nat | k > keep :: Same(d, was, k))
  }

  lemma FillOneMore(v: Dir, r: Dir, was: Dir, keep: nat, x: Chunk, now: int, n: nat)
    requires Filled(v, was, keep, x, now, n) && Moved(v, r, keep, x, now)
    ensures Filled(r, was, keep, x, now, n + 1)
  {
    forall k: nat | 1 <= k <= keep && k < n + 1 ensures Holds(r, k, x, now) {
      if k > 1 {
        assert Holds(v, k - 1, x, now);
        assert Get(r, k) == Get(v, k - 1) && At(v, k - 1) == [x];
      } else {
        assert At(v, 0) + [x] == [x];
      }
    }
    forall k: nat | k > keep ensures Same(r, was, k) {
      assert Same(v, was, k) && Get(r, k) == Get(v, k);
    }
  }

  lemma FillByWrite(v: Writer, was: Dir, l: Limits, x: Chunk, now: int, n: nat)
    requires LimitsOk(l) && v.handle && 0 in v.dir && |x| >= l.maxSize
    requires Filled(v.dir, was, l.keep, x, now, n)
    ensures var r := Written(v, l, x, now, FINE.(n := |x|));
      r.handle && 0 in r.dir && Filled(r.dir, was, l.keep, x, now, n + 1)
  {
    FullWriteShifts(v, l, x, now);
    FillOneMore(v.dir, Written(v, l, x, now, FINE.(n := |x|)).dir, was, l.keep, x, now, n);
  }

  ghost predicate FilledAfter(w: Writer, l: Limits, x: Chunk, now: int, n: nat, hist: seq<Chunk>) {
    var v := After(w, l, Full(n, x, now));
    && v.handle && 0 in v.dir && Filled(v.dir, w.dir, l.keep, x, now, n)
    && History(w, l, Full(n, x, now), hist) == hist + Copies(n, x)
  }

  lemma FillingStarts(w: Writer, l: Limits, x: Chunk, now: int, hist: seq<Chunk>)
    requires w.handle && 0 in w.dir
    ensures FilledAfter(w, l, x, now, 0, hist)
  {
    assert hist + [] == hist;
  }

  lemma FillingGoesOn(w: Writer, l: Limits, x: Chunk, now: int, n: nat, hist: seq<Chunk>)
    requires LimitsOk(l) && |x| >= l.maxSize && n > 0 && FilledAfter(w, l, x, now, n - 1, hist)
    ensures FilledAfter(w, l, x, now, n, hist)
  {
    FullStep(w, l, x, now, n);
    FullStepHistory(w, l, x, now, n, hist);
    FillByWrite(After(w, l, Full(n - 1, x, now)), w.dir, l, x, now, n - 1);
  }

  lemma {:induction false} FullWritesFill(w: Writer, l: Limits, x: Chunk, now: int, n: nat, hist: seq<Chunk>)
    requires LimitsOk(l) && w.handle && 0 in w.dir && |x| >= l.maxSize
    ensures FilledAfter(w, l, x, now, n, hist)
    decreases n
  {
    if n == 0 {
      FillingStarts(w, l, x, now, hist);
    } else {
      FullWritesFill(w, l, x, now, n - 1, hist);
      FillingGoesOn(w, l, x, now, n, hist);
    }
  }

  function Copies(n: nat, x: Chunk): seq<Chunk> { if n == 0 then [] else Copies(n - 1, x) + [x] }

  /** A stale archive with content does break it: `keep + 1` full writes later its last record
      stands where one of the new writes belongs.  So NoneStale is exactly the condition. */
  lemma StaleArchiveBreaksLogsAll(w: Writer, l: Limits, x: Chunk, now: int, hist: seq<Chunk>) returns (steps: seq<Step>)
    requires LimitsOk(l) && w.handle && 0 in w.dir && |x| >= l.maxSize
    requires !NoneStale(w.dir, l.keep)
    requires forall k: nat | l.keep < k <= 3 :: At(w.dir, k) != [] ==> At(w.dir, k)[|At(w.dir, k)| - 1] != x
    ensures Timed(steps, now) && forall s | s in steps :: AllOk(s.o, s.p)
    ensures !Suffix(LogsAll(After(w, l, steps).dir), History(w, l, steps, hist))
  {
    var n := l.keep + 1;
    steps := Full(n, x, now);
    FullIsFine(n, x, now);
    FullWritesFill(w, l, x, now, n, hist);
    StaleStays(w.dir, After(w, l, steps).dir, l.keep, x, now, hist);
  }

  lemma StaleStays(was: Dir, d: Dir, keep: nat, x: Chunk, now: int, hist: seq<Chunk>)
    requires 0 < keep && !NoneStale(was, keep) && Filled(d, was, keep, x, now, keep + 1)
    requires forall k: nat | keep < k <= 3 :: At(was, k) != [] ==> At(was, k)[|At(was, k)| - 1] != x
    ensures !Suffix(LogsAll(d), hist + Copies(keep + 1, x))
  {
    assert Copies(1, x) == [x];
    assert At(d, 0) == [] && Holds(d, 1, x, now) && (keep < 3 ==> Same(d, was, 3));
    if keep == 1 {
      assert Same(d, was, 2);
      StaleBehindOne(d, At(was, 3) + At(was, 2), x, hist);
    } else {
      assert Holds(d, 2, x, now);
      StaleBehindTwo(d, At(was, 3), x, hist);
    }
  }

  lemma StaleBehindOne(d: Dir, stale: seq<Chunk>, x: Chunk, hist: seq<Chunk>)
    requires At(d, 3) + At(d, 2) == stale && At(d, 1) == [x] && At(d, 0) == []
    requires stale != [] && stale[|stale| - 1] != x
    ensures !Suffix(LogsAll(d), hist + Copies(2, x))
  {
    StaleShows(d, x, stale, hist + [x], [x]);
    assert Copies(1, x) == [x];
    assert hist + [x] + [x] == hist + ([x] + [x]);
  }

  lemma StaleBehindTwo(d: Dir, stale: seq<Chunk>, x: Chunk, hist: seq<Chunk>)
    requires At(d, 3) == stale && At(d, 2) == [x] && At(d, 1) == [x] && At(d, 0) == []
    requires stale != [] && stale[|stale| - 1] != x
    ensures !Suffix(LogsAll(d), hist + Copies(3, x))
  {
    StaleShows(d, x, stale, hist + [x], [x, x]);
    assert Copies(1, x) == [x];
    assert Copies(2, x) == [x] + [x];
    assert hist + [x] + [x, x] == hist + ([x] + [x] + [x]);
  }

  /** A stale record in front of the same newest writes cannot come from a history with x there. */
  lemma StaleShows(d: Dir, x: Chunk, stale: seq<Chunk>, hist: seq<Chunk>, end: seq<Chunk>)
    requires LogsAll(d) == stale + end && stale != [] && stale[|stale| - 1] != x
    requires hist != [] && hist[|hist| - 1] == x
    ensures !Suffix(LogsAll(d), hist + end)
  {
    var all, h := stale + end, hist + end;
    assert all[|stale| - 1] != x;
    assert h[|hist| - 1] == x;
    SuffixAt(all, h, |end|);
  }

  lemma SuffixAt(a: seq<Chunk>, b: seq<Chunk>, i: nat)
    requires i < |a|
    ensures Suffix(a, b) ==> a[|a| - 1 - i] == b[|b| - 1 - i]
  {
  }
}
