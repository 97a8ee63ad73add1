/** The secret store (internal/secret/secret.go): a cache over a slow keyring, with
    waiter channels that a Set closes.

    `Guarded` is what the store's mutex guards.  Go slices are modelled as they are:
    a slice is an address and a length, `mem` holds the backing arrays, and an append
    with spare capacity or the slide inside a removal writes the array in place, so two
    slices over one array would see each other's writes. */
module SecretStore {

  type Path = string
  type Tid = nat

  /** A waiter channel.  Its identity records the Wait call that made it. */
  datatype Chan = NilChan | Chan(owner: Tid, serial: nat)

  datatype Slice = NilSlice | Slice(arr: nat, len: nat)

  datatype Guarded = Guarded(cache: map<Path, string>, waiters: map<Path, Slice>, mem: seq<seq<Chan>>)

  predicate SliceOk(mem: seq<seq<Chan>>, sl: Slice) {
    sl.Slice? ==> sl.arr < |mem| && sl.len <= |mem[sl.arr]|
  }

  /** The channels a slice shows, read through memory. */
  function Contents(mem: seq<seq<Chan>>, sl: Slice): seq<Chan>
    requires SliceOk(mem, sl)
  {
    if sl.NilSlice? then [] else mem[sl.arr][..sl.len]
  }

  function Waiting(g: Guarded, p: Path): Slice {
    if p in g.waiters then g.waiters[p] else NilSlice
  }

  /** Shape: every listed slice is valid and non-empty, and no two paths share an array. */
  predicate WellShaped(g: Guarded) {
    && (forall p | p in g.waiters :: g.waiters[p].Slice? && SliceOk(g.mem, g.waiters[p]) && g.waiters[p].len > 0)
    && (forall p, q | p in g.waiters && q in g.waiters && p != q :: g.waiters[p].arr != g.waiters[q].arr)
  }

  function Listed(g: Guarded, p: Path): seq<Chan>
    requires WellShaped(g)
  {
    Contents(g.mem, Waiting(g, p))
  }

  // ----- The critical sections, as functions of the guarded state -----

  function FillCache(g: Guarded, p: Path, v: string): Guarded {
    g.(cache := g.cache[p := v])
  }

  function DropCache(g: Guarded, p: Path): Guarded {
    g.(cache := g.cache - {p})
  }

  /** Go's append of one element; `spare` is the extra capacity a growth allocates. */
  function Append(mem: seq<seq<Chan>>, sl: Slice, ch: Chan, spare: nat): (r: (seq<seq<Chan>>, Slice))
    requires SliceOk(mem, sl)
    ensures r.1.Slice? && SliceOk(r.0, r.1) && Contents(r.0, r.1) == Contents(mem, sl) + [ch]
    ensures |mem| <= |r.0| && forall a | 0 <= a < |mem| && (sl.NilSlice? || a != sl.arr) :: r.0[a] == mem[a]
    ensures (sl.Slice? && r.1.arr == sl.arr) || r.1.arr == |mem|
    ensures forall a | 0 <= a < |mem| && a != r.1.arr :: r.0[a] == mem[a]
  {
    if sl.Slice? && sl.len < |mem[sl.arr]| then
      (mem[sl.arr := mem[sl.arr][sl.len := ch]], Slice(sl.arr, sl.len + 1))
    else
      (mem + [Contents(mem, sl) + [ch] + seq(spare, _ => NilChan)], Slice(|mem|, |Contents(mem, sl)| + 1))
  }

  function Register(g: Guarded, p: Path, ch: Chan, spare: nat): Guarded
    requires WellShaped(g)
  {
    var (mem, sl) := Append(g.mem, Waiting(g, p), ch, spare);
    g.(waiters := g.waiters[p := sl], mem := mem)
  }

  /** Set's critical section: cache the value and take the whole waiter list. */
  function TakeWakers(g: Guarded, p: Path, v: string): (Guarded, Slice) {
    (g.(cache := g.cache[p := v], waiters := g.waiters - {p}), Waiting(g, p))
  }

  function IndexOf(s: seq<Chan>, ch: Chan): (i: nat)
    ensures i <= |s| && (i < |s| ==> s[i] == ch) && forall j | 0 <= j < i :: s[j] != ch
  {
    if s == [] || s[0] == ch then 0 else IndexOf(s[1..], ch) + 1
  }

  /** The backing array after `append(w[:i], w[i+1:]...)`: the tail moves down one slot in
      place and the last slot keeps its old value. */
  function Slide(a: seq<Chan>, i: nat, len: nat): (r: seq<Chan>)
    requires i < len <= |a|
    ensures |r| == |a| && r[..len - 1] == a[..i] + a[i + 1..len]
  {
    a[..i] + a[i + 1..len] + a[len - 1..]
  }

  /** Dropping the waiter at index i; an emptied list loses its map entry. */
  function RemoveAt(g: Guarded, p: Path, i: nat): Guarded
    requires WellShaped(g) && p in g.waiters && i < g.waiters[p].len
  {
    var sl := g.waiters[p];
    g.(waiters := if sl.len == 1 then g.waiters - {p} else g.waiters[p := Slice(sl.arr, sl.len - 1)],
       mem := g.mem[sl.arr := Slide(g.mem[sl.arr], i, sl.len)])
  }

  function RemoveWaiter(g: Guarded, p: Path, ch: Chan): Guarded
    requires WellShaped(g)
  {
    var i := IndexOf(Listed(g, p), ch);
    if i == |Listed(g, p)| then g else RemoveAt(g, p, i)
  }

  function Without(s: seq<Chan>, ch: Chan): seq<Chan> {
    var i := IndexOf(s, ch);
    if i == |s| then s else s[..i] + s[i + 1..]
  }

  /** What registering and removing do to every list, and that no other array is touched. */
  lemma RegisterLists(g: Guarded, p: Path, ch: Chan, spare: nat)
    requires WellShaped(g)
    ensures var g' := Register(g, p, ch, spare);
      && WellShaped(g')
      && Listed(g', p) == Listed(g, p) + [ch]
      && (forall q | q != p :: Listed(g', q) == Listed(g, q))
      && |g.mem| <= |g'.mem|
      && (forall a | 0 <= a < |g.mem| && (p in g.waiters ==> g.waiters[p].arr != a) :: g'.mem[a] == g.mem[a])
      && (forall q | q in g'.waiters ::
        g'.waiters[q].arr == |g.mem| || (q in g.waiters && g'.waiters[q].arr == g.waiters[q].arr))
  {
  }

  ghost predicate OnlyShrinks(g: Guarded, g': Guarded, p: Path)
    requires WellShaped(g) && WellShaped(g')
  {
    && |g.mem| == |g'.mem|
    && (forall a | 0 <= a < |g.mem| && (p in g.waiters ==> g.waiters[p].arr != a) :: g'.mem[a] == g.mem[a])
    && (forall q | q in g'.waiters :: q in g.waiters && g'.waiters[q].arr == g.waiters[q].arr)
  }

  lemma RemoveAtShape(g: Guarded, p: Path, i: nat)
    requires WellShaped(g) && p in g.waiters && i < g.waiters[p].len
    ensures WellShaped(RemoveAt(g, p, i)) && OnlyShrinks(g, RemoveAt(g, p, i), p)
  {
  }

  lemma RemoveAtLists(g: Guarded, p: Path, i: nat)
    requires WellShaped(g) && p in g.waiters && i < g.waiters[p].len
    requires WellShaped(RemoveAt(g, p, i))
    ensures Listed(RemoveAt(g, p, i), p) == Listed(g, p)[..i] + Listed(g, p)[i + 1..]
    ensures forall q | q != p :: Listed(RemoveAt(g, p, i), q) == Listed(g, q)
  {
    var sl := g.waiters[p];
    var a := g.mem[sl.arr];
    assert Listed(g, p) == a[..sl.len];
    assert a[..i] + a[i + 1..sl.len] == a[..sl.len][..i] + a[..sl.len][i + 1..];
  }

  lemma RemoveLists(g: Guarded, p: Path, ch: Chan)
    requires WellShaped(g)
    ensures var g' := RemoveWaiter(g, p, ch);
      && WellShaped(g') && OnlyShrinks(g, g', p)
      && Listed(g', p) == Without(Listed(g, p), ch)
      && (forall q | q != p :: Listed(g', q) == Listed(g, q))
  {
    var i := IndexOf(Listed(g, p), ch);
    if i < |Listed(g, p)| {
      RemoveAtShape(g, p, i);
      RemoveAtLists(g, p, i);
    }
  }

  /** The guarded state after a waiter joined and a Set came, where that waiter is gone already. */
  lemma HandedOver(g: Guarded, p: Path, ch: Chan, spare: nat, v: string)
    requires WellShaped(g)
    ensures var g1 := Register(g, p, ch, spare);
      var (g2, sl) := TakeWakers(g1, p, v);
      && WellShaped(g1) && SliceOk(g2.mem, sl) && Contents(g2.mem, sl) == Listed(g, p) + [ch]
      && WellShaped(g2) && RemoveWaiter(g2, p, ch) == g2 && Listed(g2, p) == []
      && forall q | q != p :: Listed(g2, q) == Listed(g, q)
  {
    RegisterLists(g, p, ch, spare);
  }

  lemma IndexOfIs(s: seq<Chan>, ch: Chan, i: nat)
    requires i <= |s| && (i < |s| ==> s[i] == ch) && forall j | 0 <= j < i :: s[j] != ch
    ensures IndexOf(s, ch) == i
  {
  }

  // ----- The store object, section by section -----

  class Store {
    var cache: map<Path, string>
    var waiters: map<Path, Slice>
    var mem: seq<seq<Chan>>
    var closed: set<Chan>

    constructor ()
      ensures View() == Guarded(map[], map[], []) && closed == {}
    {
      cache, waiters, mem, closed := map[], map[], [], {};
    }

    ghost function View(): Guarded
      reads this
    {
      Guarded(cache, waiters, mem)
    }

    /** The first section of Get: a cache hit never touches the keyring. */
    method Lookup(p: Path) returns (v: string, ok: bool)
      ensures ok <==> p in cache
      ensures ok ==> v == cache[p]
    {
      if p in cache {
        return cache[p], true;
      }
      return "", false;
    }

    method Fill(p: Path, v: string)
      modifies this`cache
      ensures View() == FillCache(old(View()), p, v)
    {
      cache := cache[p := v];
    }

    method Drop(p: Path)
      modifies this`cache
      ensures View() == DropCache(old(View()), p)
    {
      cache := cache - {p};
    }

    method RegisterWaiter(p: Path, ch: Chan, spare: nat)
      requires WellShaped(View())
      modifies this`waiters, this`mem
      ensures View() == Register(old(View()), p, ch, spare)
      ensures WellShaped(View()) && Listed(View(), p) == old(Listed(View(), p)) + [ch]
    {
      RegisterLists(View(), p, ch, spare);
      var sl := if p in waiters then waiters[p] else NilSlice;
      var (m, s) := Append(mem, sl, ch, spare);
      mem := m;
      waiters := waiters[p := s];
    }

    method SetCacheAndTake(p: Path, v: string) returns (wakers: Slice)
      requires WellShaped(View())
      modifies this`cache, this`waiters
      ensures (View(), wakers) == TakeWakers(old(View()), p, v)
      ensures WellShaped(View()) && Listed(View(), p) == []
      ensures SliceOk(mem, wakers) && Contents(mem, wakers) == old(Listed(View(), p))
    {
      cache := cache[p := v];
      wakers := if p in waiters then waiters[p] else NilSlice;
      waiters := waiters - {p};
    }

    method RemoveFirst(p: Path, ch: Chan)
      requires WellShaped(View())
      modifies this`waiters, this`mem
      ensures View() == RemoveWaiter(old(View()), p, ch)
      ensures WellShaped(View()) && Listed(View(), p) == Without(old(Listed(View(), p)), ch)
    {
      RemoveLists(View(), p, ch);
      if p in waiters {
        var sl := waiters[p];
        ghost var was := Listed(View(), p);
        var i := 0;
        while i < sl.len && mem[sl.arr][i] != ch
          invariant 0 <= i <= sl.len
          invariant forall j | 0 <= j < i :: was[j] != ch
        {
          i := i + 1;
        }
        IndexOfIs(was, ch, i);
        if i < sl.len {
          mem := mem[sl.arr := Slide(mem[sl.arr], i, sl.len)];
          waiters := if sl.len == 1 then waiters - {p} else waiters[p := Slice(sl.arr, sl.len - 1)];
        }
      }
    }

    /** wake: close every taken channel in order. */
    method Wake(wakers: Slice)
      requires SliceOk(mem, wakers)
      modifies this`closed
      ensures closed == old(closed) + (set c | c in Contents(mem, wakers))
    {
      var chs := Contents(mem, wakers);
      var i := 0;
      while i < |chs|
        invariant 0 <= i <= |chs|
        invariant closed == old(closed) + (set c | c in chs[..i])
      {
        assert chs[..i + 1] == chs[..i] + [chs[i]];
        closed := closed + {chs[i]};
        i := i + 1;
      }
      assert chs[..i] == chs;
    }

    /** Get with nothing else going on: the cache answers, or a readable keyring does and is asked
        only once, for the next Get finds the same value without it. */
    method Get(p: Path, keyring: map<Path, string>, readable: bool) returns (v: string, ok: bool)
      modifies this`cache
      ensures ok <==> p in old(cache) || (readable && p in keyring)
      ensures ok ==> p in cache && v == cache[p] && (p in old(cache) ==> v == old(cache[p]))
      ensures ok && p !in old(cache) ==> v == keyring[p]
      ensures cache == if !ok || p in old(cache) then old(cache) else old(cache)[p := v]
    {
      v, ok := Lookup(p);
      if ok {
        return;
      }
      if !readable || p !in keyring {
        return "", false;
      }
      Fill(p, keyring[p]);
      return keyring[p], true;
    }

    /** A whole hand-over: a waiter joins those already there, a Set comes and wakes them all, and
        the waiter reads the value and leaves, whatever the keyring holds. */
    method HandOver(p: Path, v: string, ch: Chan, spare: nat, keyring: map<Path, string>) returns (got: string)
      requires WellShaped(View())
      modifies this
      ensures got == v && View() == TakeWakers(Register(old(View()), p, ch, spare), p, v).0
      ensures closed == old(closed) + (set c | c in old(Listed(View(), p)) + [ch])
    {
      HandedOver(View(), p, ch, spare, v);
      RegisterWaiter(p, ch, spare);
      var wakers := SetCacheAndTake(p, v);
      Wake(wakers);
      var w, ok := Get(p, keyring, true);
      RemoveFirst(p, ch);
      return w;
    }
  }
}
